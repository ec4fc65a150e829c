/** The income and expense trend (`TrendChart`): the transactions bucketed
    by the first seven characters of their date (`YYYY-MM`), every
    transaction that is not income counted as expense, the six latest
    months in ascending order, each labelled with its Persian month name. */
module TrendChart {
  import opened Common
  import opened Text
  import opened ExpenseTypes
  import opened Amounts

  /** `t.date.slice(0, 7)` */
  function MonthKey(t: Transaction): string
  {
    Prefix(t.date, 7)
  }

  function InIncome(m: string): Transaction -> bool
  {
    (t: Transaction) => MonthKey(t) == m && t.kind == Income
  }

  function InExpense(m: string): Transaction -> bool
  {
    (t: Transaction) => MonthKey(t) == m && t.kind != Income
  }

  function InMonthKey(m: string): Transaction -> bool
  {
    (t: Transaction) => MonthKey(t) == m
  }

  datatype Flow = Flow(income: int, expense: int)

  /** The figures of a month after adding one transaction to it: income
      when it is income, expense otherwise. */
  function AddFlow(f: Flow, t: Transaction): Flow
  {
    if t.kind == Income then f.(income := f.income + t.amount) else f.(expense := f.expense + t.amount)
  }

  /** What the month `m` holds once the transactions `ts` are added in
      order. */
  function FlowOf(ts: seq<Transaction>, m: string): Flow
  {
    if ts == [] then Flow(0, 0)
    else
      var f := FlowOf(ts[..|ts| - 1], m);
      var t := ts[|ts| - 1];
      if MonthKey(t) == m then AddFlow(f, t) else f
  }

  /** Adding one transaction at the end adds its amount to whichever
      filter keeps it. */
  lemma TotalSnoc(ts: seq<Transaction>, t: Transaction, p: Transaction -> bool)
    ensures Total(Filter(ts + [t], p)) == Total(Filter(ts, p)) + (if p(t) then t.amount else 0)
  {
    FilterConcat(ts, [t], p);
    assert Filter([t], p) == (if p(t) then [t] else []) + Filter([], p);
    SumOfConcat(Filter(ts, p), Filter([t], p), AmountOf);
  }

  /** A month's income is the sum of its income transactions, its expense
      the sum of all its other transactions. */
  lemma {:induction false} FlowIsSums(ts: seq<Transaction>, m: string)
    ensures FlowOf(ts, m) == Flow(Total(Filter(ts, InIncome(m))), Total(Filter(ts, InExpense(m))))
  {
    if ts != [] {
      var init, t := ts[..|ts| - 1], ts[|ts| - 1];
      assert ts == init + [t];
      FlowIsSums(init, m);
      TotalSnoc(init, t, InIncome(m));
      TotalSnoc(init, t, InExpense(m));
    }
  }

  /** Income and expense of a month split its transactions: together they
      are the month's total. */
  lemma {:induction false} FlowPartitionsMonth(ts: seq<Transaction>, m: string)
    ensures FlowOf(ts, m).income + FlowOf(ts, m).expense == Total(Filter(ts, InMonthKey(m)))
  {
    if ts != [] {
      var init, t := ts[..|ts| - 1], ts[|ts| - 1];
      assert ts == init + [t];
      FlowPartitionsMonth(init, m);
      TotalSnoc(init, t, InMonthKey(m));
    }
  }

  lemma FlowSnoc(ts: seq<Transaction>, t: Transaction, m: string)
    ensures FlowOf(ts + [t], m) == if MonthKey(t) == m then AddFlow(FlowOf(ts, m), t) else FlowOf(ts, m)
  {
    assert (ts + [t])[..|ts|] == ts;
  }

  lemma MapSnoc(ts: seq<Transaction>, t: Transaction)
    ensures Map(ts + [t], MonthKey) == Map(ts, MonthKey) + [MonthKey(t)]
  {
  }

  lemma DistinctSnoc(s: seq<string>, x: string)
    ensures Distinct(s + [x]) == if x in Distinct(s) then Distinct(s) else Distinct(s) + [x]
  {
    assert (s + [x])[..|s|] == s;
  }

  /** A month that no transaction so far falls in has nothing yet. */
  lemma {:induction false} FreshMonthEmpty(ts: seq<Transaction>, month: string)
    requires month !in Map(ts, MonthKey)
    ensures FlowOf(ts, month) == Flow(0, 0)
  {
    if ts != [] {
      var init := ts[..|ts| - 1];
      assert Map(ts, MonthKey)[|ts| - 1] == MonthKey(ts[|ts| - 1]);
      assert Map(init, MonthKey) == Map(ts, MonthKey)[..|ts| - 1];
      FreshMonthEmpty(init, month);
    }
  }

  /** `monthlyData` after the transactions `ts`: the months in first
      occurrence order, and each month's figures. */
  ghost predicate Buckets(ts: seq<Transaction>, keys: seq<string>, data: map<string, Flow>)
  {
    && keys == Distinct(Map(ts, MonthKey))
    && (forall m :: m in data <==> m in keys)
    && (forall m :: m in data ==> data[m] == FlowOf(ts, m))
  }

  /** The months seen after one more transaction: its month is appended
      when it was new. */
  lemma BucketKeysStep(ts: seq<Transaction>, t: Transaction, keys: seq<string>, data: map<string, Flow>, keys': seq<string>)
    requires Buckets(ts, keys, data)
    requires keys' == if MonthKey(t) in data then keys else keys + [MonthKey(t)]
    ensures keys' == Distinct(Map(ts + [t], MonthKey))
  {
    MapSnoc(ts, t);
    DistinctSnoc(Map(ts, MonthKey), MonthKey(t));
  }

  /** One more transaction in the buckets: a new month starts at zero and
      the transaction is added to its month's income or expense. */
  lemma BucketStep(ts: seq<Transaction>, t: Transaction, keys: seq<string>, data: map<string, Flow>,
                   mid: map<string, Flow>, keys': seq<string>, data': map<string, Flow>)
    requires Buckets(ts, keys, data)
    requires keys' == if MonthKey(t) in data then keys else keys + [MonthKey(t)]
    requires mid == if MonthKey(t) in data then data else data[MonthKey(t) := Flow(0, 0)]
    requires data' == mid[MonthKey(t) := AddFlow(mid[MonthKey(t)], t)]
    ensures Buckets(ts + [t], keys', data')
  {
    var month := MonthKey(t);
    BucketKeysStep(ts, t, keys, data, keys');
    if month !in data {
      FreshMonthEmpty(ts, month);
    }
    forall m | m in data' ensures data'[m] == FlowOf(ts + [t], m) {
      FlowSnoc(ts, t, m);
    }
  }

  /** The `forEach` that fills `monthlyData`: the months in the order they
      first occur (`Object.keys`), and for each its income and expense. */
  method MonthlyData(ts: seq<Transaction>) returns (keys: seq<string>, data: map<string, Flow>)
    ensures Buckets(ts, keys, data)
  {
    keys := [];
    data := map[];
    for i := 0 to |ts|
      invariant Buckets(ts[..i], keys, data)
    {
      var t := ts[i];
      var month := MonthKey(t);
      ghost var keys0, data0 := keys, data;
      if month !in data {
        data := data[month := Flow(0, 0)];
        keys := keys + [month];
      }
      ghost var mid := data;
      data := data[month := AddFlow(data[month], t)];
      BucketStep(ts[..i], t, keys0, data0, mid, keys, data);
      assert ts[..i + 1] == ts[..i] + [t];
    }
    assert ts[..|ts|] == ts;
  }

  // ---------------------------------------------------------------------------
  // `Object.keys(monthlyData).sort()`: string order

  ghost predicate Ascending(s: seq<string>)
  {
    forall i, j :: 0 <= i < j < |s| ==> LexLe(s[i], s[j])
  }

  /** Inserts `x` before the first key not smaller than it. */
  function InsertKey(x: string, s: seq<string>): (r: seq<string>)
    requires Ascending(s)
    ensures multiset(r) == multiset(s) + multiset{x}
    ensures Ascending(r)
  {
    if s == [] || LexLe(x, s[0]) then
      BelowAll(x, s);
      [x] + s
    else
      LexTrichotomy(x, s[0]);
      var rest := InsertKey(x, s[1..]);
      assert s == [s[0]] + s[1..];
      HeadBelowRest(s[0], s[1..], x, rest);
      [s[0]] + rest
  }

  /** A key no larger than the first of an ascending list goes in front. */
  lemma BelowAll(x: string, s: seq<string>)
    requires Ascending(s) && (s == [] || LexLe(x, s[0]))
    ensures Ascending([x] + s)
  {
    forall j | 0 <= j < |s| ensures LexLe(x, s[j]) {
      if j > 0 {
        LexLeTransitive(x, s[0], s[j]);
      }
    }
  }

  /** The head stays in front of the tail with `x` inserted. */
  lemma HeadBelowRest(h: string, tail: seq<string>, x: string, rest: seq<string>)
    requires Ascending([h] + tail) && LexLe(h, x) && Ascending(rest)
    requires multiset(rest) == multiset(tail) + multiset{x}
    ensures Ascending([h] + rest)
  {
    forall j | 0 <= j < |rest| ensures LexLe(h, rest[j]) {
      assert rest[j] in multiset(rest);
      if rest[j] != x {
        assert rest[j] in tail;
        var k :| 0 <= k < |tail| && tail[k] == rest[j];
        var ht := [h] + tail;
        assert ht[0] == h && ht[k + 1] == tail[k];
        assert LexLe(ht[0], ht[k + 1]);
      }
    }
  }

  /** The default `sort()`: ascending by UTF-16 code units. */
  function SortKeys(keys: seq<string>): (r: seq<string>)
    ensures multiset(r) == multiset(keys)
    ensures Ascending(r)
  {
    if keys == [] then []
    else
      assert keys == [keys[0]] + keys[1..];
      InsertKey(keys[0], SortKeys(keys[1..]))
  }

  /** `slice(-6)`: the last six, or all of them when there are fewer. */
  function LastSix(s: seq<string>): (r: seq<string>)
  {
    if |s| <= 6 then s else s[|s| - 6..]
  }

  /** The months shown: at most six, ascending, each a month of the data,
      as many as there are months up to six, and every month left out
      earlier than every month shown. */
  lemma LatestMonths(keys: seq<string>)
    requires NoDuplicates(keys)
    ensures var r := LastSix(SortKeys(keys));
      && |r| == (if |keys| <= 6 then |keys| else 6)
      && Ascending(r)
      && (forall m :: m in r ==> m in keys)
      && (forall m, n :: m in keys && m !in r && n in r ==> LexLt(m, n))
  {
    var sorted := SortKeys(keys);
    var r := LastSix(sorted);
    assert |sorted| == |keys| by {
      assert |multiset(sorted)| == |multiset(keys)|;
    }
    forall m | m in r ensures m in keys {
      assert m in multiset(sorted);
    }
    forall m, n | m in keys && m !in r && n in r ensures LexLt(m, n) {
      assert m in multiset(sorted);
      var a :| 0 <= a < |sorted| && sorted[a] == m;
      var b :| 0 <= b < |r| && r[b] == n;
      var off := |sorted| - |r|;
      assert sorted[off + b] == n;
      assert a < off + b;
      assert LexLe(m, n);
      DistinctSorted(keys, sorted, a, off + b);
    }
  }

  /** Two positions of a sorted copy of a list without repeats hold
      different strings. */
  lemma DistinctSorted(keys: seq<string>, sorted: seq<string>, a: int, b: int)
    requires NoDuplicates(keys) && multiset(sorted) == multiset(keys)
    requires 0 <= a < b < |sorted|
    ensures sorted[a] != sorted[b]
  {
    if sorted[a] == sorted[b] {
      var x := sorted[a];
      assert multiset(sorted)[x] >= 2 by {
        assert sorted == sorted[..a] + [x] + sorted[a + 1..b] + [x] + sorted[b + 1..];
        assert multiset(sorted) == multiset(sorted[..a]) + multiset{x} + multiset(sorted[a + 1..b]) + multiset{x} + multiset(sorted[b + 1..]);
      }
      NoDuplicatesCountOne(keys, x);
      assert false;
    }
  }

  // ---------------------------------------------------------------------------
  // labels

  const PersianMonths: seq<string> := [
    "فروردین", "اردیبهشت", "خرداد", "تیر",
    "مرداد", "شهریور", "مهر", "آبان",
    "آذر", "دی", "بهمن", "اسفند"]

  function MonthName(i: int): string
    requires 0 <= i < 12
  {
    PersianMonths[i]
  }

  /** `parseInt(month.split('-')[1])` when it is a month number from 1 to 12. */
  function MonthNumber(month: string): (r: Option<int>)
    ensures r.Some? ==> 1 <= r.value <= 12
  {
    var parts := Split(month, {'-'});
    var n := if |parts| > 1 then ParseInt(parts[1]) else None;
    if n.Some? && 1 <= n.value <= 12 then n else None
  }

  /** `persianMonths[parseInt(month.split('-')[1]) - 1] || month` */
  function Label(month: string): string
  {
    match MonthNumber(month)
    case Some(n) => MonthName(n - 1)
    case None => month
  }

  /** A `YYYY-MM` key with a month from 01 to 12 has that month's number,
      so its label is that month's name. */
  lemma LabelOfMonthKey(y: string, mm: string)
    requires |y| == 4 && AllDigits(y) && |mm| == 2 && AllDigits(mm)
    requires 1 <= ValueOf(mm) <= 12
    ensures MonthNumber(y + "-" + mm) == Some(ValueOf(mm))
  {
    DigitsDashFree(y);
    DigitsDashFree(mm);
    SplitKey(y, mm);
    ParseDigits(mm);
  }

  lemma DigitsDashFree(s: string)
    requires AllDigits(s)
    ensures FreeOf(s, {'-'})
  {
    forall i | 0 <= i < |s| ensures s[i] != '-' {
      assert IsDigit(s[i]);
    }
  }

  lemma SplitKey(y: string, mm: string)
    requires FreeOf(y, {'-'}) && FreeOf(mm, {'-'})
    ensures Split(y + "-" + mm, {'-'}) == [y, mm]
  {
    SplitAfterPiece(y, '-', mm, {'-'});
    SplitFree(mm, {'-'});
    assert y + "-" + mm == y + ['-'] + mm;
  }

  /** A key without a dash keeps its own text as label. */
  lemma LabelWithoutDash(month: string)
    requires FreeOf(month, {'-'})
    ensures Label(month) == month
  {
    SplitFree(month, {'-'});
  }

  // ---------------------------------------------------------------------------
  // the chart data

  datatype Point = Point(name: string, income: int, expense: int)

  /** `{ name: label, income, expense }` for a month and its figures. */
  function MakePoint(month: string, flow: Flow): Point
  {
    Point(Label(month), flow.income, flow.expense)
  }

  /** A month's point: its label and its figures. */
  function PointOf(ts: seq<Transaction>, month: string): Point
  {
    MakePoint(month, FlowOf(ts, month))
  }

  function PointsFor(ts: seq<Transaction>, months: seq<string>): (r: seq<Point>)
    ensures |r| == |months|
    ensures forall i :: 0 <= i < |months| ==> r[i] == PointOf(ts, months[i])
  {
    seq(|months|, i requires 0 <= i < |months| => PointOf(ts, months[i]))
  }

  lemma ShownAreKeys(keys: seq<string>)
    ensures forall m :: m in LastSix(SortKeys(keys)) ==> m in keys
  {
    forall m | m in LastSix(SortKeys(keys)) ensures m in keys {
      assert m in multiset(SortKeys(keys));
    }
  }

  /** The months the chart shows. */
  function ShownMonths(ts: seq<Transaction>): seq<string>
  {
    LastSix(SortKeys(Distinct(Map(ts, MonthKey))))
  }

  /** `sortedMonths.map(m => ({ month: label, income, expense }))` over the
      buckets. */
  function PointsFrom(months: seq<string>, data: map<string, Flow>): seq<Point>
    requires forall m :: m in months ==> m in data
  {
    seq(|months|, i requires 0 <= i < |months| => MakePoint(months[i], data[months[i]]))
  }

  /** Reading the figures from the buckets gives each month's own figures. */
  lemma PointsFromBuckets(ts: seq<Transaction>, keys: seq<string>, data: map<string, Flow>, months: seq<string>)
    requires Buckets(ts, keys, data) && forall m :: m in months ==> m in keys
    ensures forall m :: m in months ==> m in data
    ensures PointsFrom(months, data) == PointsFor(ts, months)
  {
    var r, q := PointsFrom(months, data), PointsFor(ts, months);
    forall i | 0 <= i < |months| ensures r[i] == q[i] {
      assert data[months[i]] == FlowOf(ts, months[i]);
    }
  }

  /** `data`: fill the buckets, take the latest six months in order, and
      give each its label and figures. */
  method TrendData(ts: seq<Transaction>) returns (points: seq<Point>)
    ensures points == PointsFor(ts, ShownMonths(ts))
  {
    var keys, data := MonthlyData(ts);
    var months := LastSix(SortKeys(keys));
    ShownAreKeys(keys);
    PointsFromBuckets(ts, keys, data, months);
    points := PointsFrom(months, data);
  }

  /** At most six months are shown, and none exactly when there are no
      transactions. */
  lemma ShownMonthsCount(ts: seq<Transaction>)
    ensures |ShownMonths(ts)| <= 6 && (ShownMonths(ts) == [] <==> ts == [])
  {
    var keys := Distinct(Map(ts, MonthKey));
    LatestMonths(keys);
    if ts != [] {
      assert Map(ts, MonthKey)[0] in keys;
    }
  }

  /** Each point's income and expense add up to all of its month's
      transactions. */
  lemma PointsAddUp(ts: seq<Transaction>, months: seq<string>)
    ensures var r := PointsFor(ts, months);
      forall i :: 0 <= i < |r| ==> r[i].income + r[i].expense == Total(Filter(ts, InMonthKey(months[i])))
  {
    forall i | 0 <= i < |months|
      ensures FlowOf(ts, months[i]).income + FlowOf(ts, months[i]).expense == Total(Filter(ts, InMonthKey(months[i])))
    {
      FlowPartitionsMonth(ts, months[i]);
    }
  }

  /** The chart: at most six points, one per month shown, each month's
      income and expense adding up to all of that month's transactions; no
      points exactly when there are no transactions. */
  lemma TrendDataShape(ts: seq<Transaction>)
    ensures var months := ShownMonths(ts);
      var r := PointsFor(ts, months);
      && |r| <= 6
      && (r == [] <==> ts == [])
      && (forall i :: 0 <= i < |r| ==> r[i].income + r[i].expense == Total(Filter(ts, InMonthKey(months[i]))))
  {
    ShownMonthsCount(ts);
    PointsAddUp(ts, ShownMonths(ts));
  }
}
