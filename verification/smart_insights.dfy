/** The "smart insights" card (`SmartInsights`): the newest month of the
    list, its income and expense, the change of its expense against the
    month before, its largest expense category, and a budget suggested for
    that category. Percentages are exact numbers. */
module SmartInsights {
  import opened Common
  import opened Text
  import opened ExpenseTypes
  import opened TrendChart

  /** `sumBy(list, fn)`: the amounts of the transactions that match. The
      amounts are numbers here, so `b.amount || 0` is the amount itself. */
  function SumBy(list: seq<Transaction>, p: Transaction -> bool): int
  {
    Total(Filter(list, p))
  }

  // ---------------------------------------------------------------------------
  // newest first: `sort((a, b) => (a.date < b.date ? 1 : -1))`

  ghost predicate NewestFirst(s: seq<Transaction>)
  {
    forall i, j :: 0 <= i < j < |s| ==> LexLe(s[j].date, s[i].date)
  }

  /** Puts `x` before the first transaction that is not newer than it. */
  function InsertByDate(x: Transaction, s: seq<Transaction>): (r: seq<Transaction>)
    requires NewestFirst(s)
    ensures multiset(r) == multiset(s) + multiset{x}
    ensures NewestFirst(r)
  {
    if s == [] || LexLe(s[0].date, x.date) then
      NewestInFront(x, s);
      [x] + s
    else
      LexTrichotomy(x.date, s[0].date);
      var rest := InsertByDate(x, s[1..]);
      assert s == [s[0]] + s[1..];
      HeadNewerThanRest(s[0], s[1..], x, rest);
      [s[0]] + rest
  }

  lemma NewestInFront(x: Transaction, s: seq<Transaction>)
    requires NewestFirst(s) && (s == [] || LexLe(s[0].date, x.date))
    ensures NewestFirst([x] + s)
  {
    forall j | 0 <= j < |s| ensures LexLe(s[j].date, x.date) {
      if j > 0 {
        LexLeTransitive(s[j].date, s[0].date, x.date);
      }
    }
  }

  lemma HeadNewerThanRest(h: Transaction, tail: seq<Transaction>, x: Transaction, rest: seq<Transaction>)
    requires NewestFirst([h] + tail) && LexLe(x.date, h.date) && NewestFirst(rest)
    requires multiset(rest) == multiset(tail) + multiset{x}
    ensures NewestFirst([h] + rest)
  {
    forall j | 0 <= j < |rest| ensures LexLe(rest[j].date, h.date) {
      assert rest[j] in multiset(rest);
      if rest[j] != x {
        assert rest[j] in tail;
        var k :| 0 <= k < |tail| && tail[k] == rest[j];
        var ht := [h] + tail;
        assert ht[0] == h && ht[k + 1] == tail[k];
      }
    }
  }

  /** The list sorted newest first; transactions of the same date keep
      their order. */
  function ByDateDesc(ts: seq<Transaction>): (r: seq<Transaction>)
    ensures multiset(r) == multiset(ts)
    ensures NewestFirst(r)
  {
    if ts == [] then []
    else
      assert ts == [ts[0]] + ts[1..];
      InsertByDate(ts[0], ByDateDesc(ts[1..]))
  }

  lemma {:induction false} InsertSum(x: Transaction, s: seq<Transaction>, p: Transaction -> bool)
    requires NewestFirst(s)
    ensures SumBy(InsertByDate(x, s), p) == SumBy([x], p) + SumBy(s, p)
  {
    if s == [] || LexLe(s[0].date, x.date) {
      FilterConcat([x], s, p);
      SumOfConcat(Filter([x], p), Filter(s, p), AmountOf);
    } else {
      InsertSum(x, s[1..], p);
      assert s == [s[0]] + s[1..];
      FilterConcat([s[0]], InsertByDate(x, s[1..]), p);
      SumOfConcat(Filter([s[0]], p), Filter(InsertByDate(x, s[1..]), p), AmountOf);
      FilterConcat([s[0]], s[1..], p);
      SumOfConcat(Filter([s[0]], p), Filter(s[1..], p), AmountOf);
    }
  }

  /** Sorting changes no sum. */
  lemma {:induction false} SortedSumBy(ts: seq<Transaction>, p: Transaction -> bool)
    ensures SumBy(ByDateDesc(ts), p) == SumBy(ts, p)
  {
    if ts != [] {
      SortedSumBy(ts[1..], p);
      InsertSum(ts[0], ByDateDesc(ts[1..]), p);
      assert ts == [ts[0]] + ts[1..];
      FilterConcat([ts[0]], ts[1..], p);
      SumOfConcat(Filter([ts[0]], p), Filter(ts[1..], p), AmountOf);
    }
  }

  // ---------------------------------------------------------------------------
  // `months`: the distinct `yyyymm` of the sorted list, the first three

  ghost predicate StrictlyNewer(s: seq<string>)
  {
    forall i, j :: 0 <= i < j < |s| ==> LexLt(s[j], s[i])
  }

  /** The month keys of a list sorted newest first are in order too. */
  lemma MonthKeysNewestFirst(s: seq<Transaction>)
    requires NewestFirst(s)
    ensures forall i, j :: 0 <= i < j < |s| ==> LexLe(MonthKey(s[j]), MonthKey(s[i]))
  {
    forall i, j | 0 <= i < j < |s| ensures LexLe(MonthKey(s[j]), MonthKey(s[i])) {
      LexLePrefix(s[j].date, s[i].date, 7);
    }
  }

  /** The distinct values of a list that never increases strictly decrease. */
  lemma {:induction false} DistinctDecreasing(s: seq<string>)
    requires forall i, j :: 0 <= i < j < |s| ==> LexLe(s[j], s[i])
    ensures StrictlyNewer(Distinct(s))
  {
    if s != [] {
      var init := s[..|s| - 1];
      var last := s[|s| - 1];
      DistinctDecreasing(init);
      var d := Distinct(init);
      if last !in d {
        forall k | 0 <= k < |d| ensures LexLt(last, d[k]) {
          assert d[k] in init;
          var i :| 0 <= i < |init| && init[i] == d[k];
          assert LexLe(s[|s| - 1], s[i]);
        }
      }
    }
  }

  /** `months` */
  function Months(sorted: seq<Transaction>): seq<string>
  {
    Prefix(Distinct(Map(sorted, MonthKey)), 3)
  }

  /** On a list sorted newest first: the months are at most three, newest
      first, and every month of the list left out is older than all of
      them. */
  lemma MonthsOfSorted(sorted: seq<Transaction>)
    requires NewestFirst(sorted)
    ensures var months := Months(sorted);
      && |months| <= 3
      && (sorted != [] <==> months != [])
      && StrictlyNewer(months)
      && (forall k :: 0 <= k < |months| ==> months[k] in Map(sorted, MonthKey))
      && (forall i :: 0 <= i < |sorted| && MonthKey(sorted[i]) !in months ==>
            |months| == 3 && forall k :: 0 <= k < 3 ==> LexLt(MonthKey(sorted[i]), months[k]))
  {
    var keys := Map(sorted, MonthKey);
    var d := Distinct(keys);
    var months := Months(sorted);
    MonthKeysNewestFirst(sorted);
    DistinctDecreasing(keys);
    assert months == d[..|months|];
    if sorted != [] {
      assert keys[0] in d;
    }
    forall i | 0 <= i < |sorted| && MonthKey(sorted[i]) !in months
      ensures |months| == 3 && forall k :: 0 <= k < 3 ==> LexLt(MonthKey(sorted[i]), months[k])
    {
      assert keys[i] == MonthKey(sorted[i]) && keys[i] in d;
      var a :| 0 <= a < |d| && d[a] == MonthKey(sorted[i]);
      assert forall k :: 0 <= k < |months| ==> months[k] != MonthKey(sorted[i]);
      assert a >= |months|;
    }
  }

  /** Reordering the transactions keeps the set of their months. */
  lemma PermutedMonthKeys(a: seq<Transaction>, b: seq<Transaction>)
    requires multiset(a) == multiset(b)
    ensures forall m :: m in Map(a, MonthKey) ==> m in Map(b, MonthKey)
  {
    forall m | m in Map(a, MonthKey) ensures m in Map(b, MonthKey) {
      var i :| 0 <= i < |a| && Map(a, MonthKey)[i] == m;
      assert a[i] in multiset(b);
      var j :| 0 <= j < |b| && b[j] == a[i];
      assert Map(b, MonthKey)[j] == m;
    }
  }

  /** Each month listed is the month of one of the transactions, in
      whatever order they come. */
  lemma MonthsFromTransactions(sorted: seq<Transaction>, ts: seq<Transaction>)
    requires multiset(sorted) == multiset(ts)
    ensures forall k :: 0 <= k < |Months(sorted)| ==> Months(sorted)[k] in Map(ts, MonthKey)
  {
    var d := Distinct(Map(sorted, MonthKey));
    PermutedMonthKeys(sorted, ts);
    forall k | 0 <= k < |Months(sorted)| ensures Months(sorted)[k] in Map(ts, MonthKey) {
      assert Months(sorted)[k] == d[k];
      assert d[k] in Map(sorted, MonthKey);
    }
  }

  /** A transaction whose month is not listed is older than all three
      listed months. */
  lemma MonthsLeaveOutOlder(sorted: seq<Transaction>, ts: seq<Transaction>)
    requires NewestFirst(sorted) && multiset(sorted) == multiset(ts)
    ensures var months := Months(sorted);
      forall t :: t in ts && MonthKey(t) !in months ==>
        |months| == 3 && forall k :: 0 <= k < 3 ==> LexLt(MonthKey(t), months[k])
  {
    var months := Months(sorted);
    MonthsOfSorted(sorted);
    forall t | t in ts && MonthKey(t) !in months
      ensures |months| == 3 && forall k :: 0 <= k < 3 ==> LexLt(MonthKey(t), months[k])
    {
      assert t in multiset(sorted);
      var i :| 0 <= i < |sorted| && sorted[i] == t;
    }
  }

  /** The months: at most three, newest first, each the month of some
      transaction, and every month of the list left out older than all of
      them. */
  lemma MonthsNewestFirst(ts: seq<Transaction>)
    ensures var months := Months(ByDateDesc(ts));
      && |months| <= 3
      && (ts != [] <==> months != [])
      && StrictlyNewer(months)
      && (forall k :: 0 <= k < |months| ==> months[k] in Map(ts, MonthKey))
      && (forall t :: t in ts && MonthKey(t) !in months ==>
            |months| == 3 && forall k :: 0 <= k < 3 ==> LexLt(MonthKey(t), months[k]))
  {
    var sorted := ByDateDesc(ts);
    MonthsOfSorted(sorted);
    MonthsFromTransactions(sorted, ts);
    MonthsLeaveOutOlder(sorted, ts);
    assert |sorted| == |ts| by {
      assert |multiset(sorted)| == |multiset(ts)|;
    }
  }

  // ---------------------------------------------------------------------------
  // the figures

  /** `m1 ? … : 0`: a month is there when it exists and is not empty. */
  predicate Present(m: Option<string>)
  {
    m.Some? && m.value != ""
  }

  /** `months[k]`, undefined past the end. */
  function MonthAt(months: seq<string>, k: nat): Option<string>
  {
    if k < |months| then Some(months[k]) else None
  }

  /** `yyyymm(t.date) === m && t.type === kind`; nothing matches an
      undefined month. */
  function InMonthOfKind(m: Option<string>, kind: TxType): Transaction -> bool
  {
    (t: Transaction) => m.Some? && MonthKey(t) == m.value && t.kind == kind
  }

  /** `… && t.category === cat` */
  function InMonthCategory(m: Option<string>, cat: string): Transaction -> bool
  {
    (t: Transaction) => m.Some? && MonthKey(t) == m.value && t.kind == Expense && t.category == cat
  }

  /** `deltaEx`: the change of expense against the month before, 0 without one. */
  function DeltaEx(m1: Option<string>, ex0: int, ex1: int): int
  {
    if Present(m1) then ex0 - ex1 else 0
  }

  /** `deltaPct`: that change as a percentage of the earlier expense, 0
      unless there is an earlier month with a positive expense. */
  function DeltaPct(m1: Option<string>, deltaEx: int, ex1: int): real
  {
    if Present(m1) && ex1 > 0 then deltaEx as real / ex1 as real * 100.0 else 0.0
  }

  /** Without a month before the change is 0; with one and a positive
      expense in it, the percentage of that expense gives back the change. */
  lemma DeltaFacts(m1: Option<string>, ex0: int, ex1: int)
    ensures var d := DeltaEx(m1, ex0, ex1);
      && (!Present(m1) ==> d == 0 && DeltaPct(m1, d, ex1) == 0.0)
      && (Present(m1) ==> d == ex0 - ex1)
      && (ex1 <= 0 ==> DeltaPct(m1, d, ex1) == 0.0)
      && (Present(m1) && ex1 > 0 ==> DeltaPct(m1, d, ex1) * ex1 as real == (ex0 - ex1) as real * 100.0)
  {
  }

  // ---------------------------------------------------------------------------
  // the top category of the newest month

  /** The `for..of` over the sorted list that fills `catMap`: transactions
      of another month or of another kind are skipped. */
  method MonthCategoryTotals(sorted: seq<Transaction>, m0: Option<string>) returns (acc: seq<(string, int)>)
    ensures acc == CategoryTotals(Filter(sorted, InMonthOfKind(m0, Expense)))
  {
    acc := [];
    for i := 0 to |sorted|
      invariant acc == CategoryTotals(Filter(sorted[..i], InMonthOfKind(m0, Expense)))
    {
      var t := sorted[i];
      ghost var before := Filter(sorted[..i], InMonthOfKind(m0, Expense));
      FilterStep(sorted, i, InMonthOfKind(m0, Expense));
      if m0.None? || MonthKey(t) != m0.value {
        assert Filter(sorted[..i + 1], InMonthOfKind(m0, Expense)) == before;
        continue;
      }
      if t.kind != Expense {
        assert Filter(sorted[..i + 1], InMonthOfKind(m0, Expense)) == before;
        continue;
      }
      assert Filter(sorted[..i + 1], InMonthOfKind(m0, Expense)) == before + [t];
      CategoryTotalsSnoc(before, t);
      acc := AddTo(acc, t.category, t.amount);
    }
    assert sorted[..|sorted|] == sorted;
  }

  /** One more element through a filter. */
  lemma FilterStep(s: seq<Transaction>, i: int, p: Transaction -> bool)
    requires 0 <= i < |s|
    ensures Filter(s[..i + 1], p) == Filter(s[..i], p) + (if p(s[i]) then [s[i]] else [])
  {
    assert s[..i + 1] == s[..i] + [s[i]];
    FilterConcat(s[..i], [s[i]], p);
  }

  lemma CategoryTotalsSnoc(ts: seq<Transaction>, t: Transaction)
    ensures CategoryTotals(ts + [t]) == AddTo(CategoryTotals(ts), t.category, t.amount)
  {
    var pairs := Map(ts + [t], CategoryAmount);
    assert pairs[..|ts|] == Map(ts, CategoryAmount);
  }

  lemma {:induction false} FilterFilter(s: seq<Transaction>, p: Transaction -> bool, q: Transaction -> bool, pq: Transaction -> bool)
    requires forall t :: pq(t) == (p(t) && q(t))
    ensures Filter(Filter(s, p), q) == Filter(s, pq)
  {
    if s != [] {
      FilterFilter(s[1..], p, q, pq);
      FilterConcat(if p(s[0]) then [s[0]] else [], Filter(s[1..], p), q);
    }
  }

  /** A category's entry in the month's totals is the sum of its expenses
      in the month. */
  lemma MonthCategoryEntry(sorted: seq<Transaction>, m0: Option<string>, k: int)
    requires 0 <= k < |CategoryTotals(Filter(sorted, InMonthOfKind(m0, Expense)))|
    ensures var e := CategoryTotals(Filter(sorted, InMonthOfKind(m0, Expense)))[k];
      e.1 == SumBy(sorted, InMonthCategory(m0, e.0))
  {
    var expenses := Filter(sorted, InMonthOfKind(m0, Expense));
    var e := CategoryTotals(expenses)[k];
    CategoryTotalsEntry(expenses, k);
    FilterFilter(sorted, InMonthOfKind(m0, Expense), InCategory(e.0), InMonthCategory(m0, e.0));
  }

  /** The top category: none exactly when the month has no expense;
      otherwise its amount is the sum of that category's expenses in the
      month, and no category spent more in it. */
  lemma TopCategoryIsLargest(sorted: seq<Transaction>, m0: Option<string>)
    ensures var top := TopEntry(CategoryTotals(Filter(sorted, InMonthOfKind(m0, Expense))));
      && (top.None? <==> Filter(sorted, InMonthOfKind(m0, Expense)) == [])
      && (top.Some? ==>
            && top.value.1 == SumBy(sorted, InMonthCategory(m0, top.value.0))
            && forall t :: t in sorted && InMonthOfKind(m0, Expense)(t) ==>
                 SumBy(sorted, InMonthCategory(m0, t.category)) <= top.value.1)
  {
    var expenses := Filter(sorted, InMonthOfKind(m0, Expense));
    var acc := CategoryTotals(expenses);
    if expenses != [] {
      CategoryHasEntry(expenses, expenses[0]);
      TopEntryIsLargest(acc);
      var top := TopEntry(acc).value;
      var k :| 0 <= k < |acc| && acc[k] == top;
      MonthCategoryEntry(sorted, m0, k);
      forall t | t in sorted && InMonthOfKind(m0, Expense)(t)
        ensures SumBy(sorted, InMonthCategory(m0, t.category)) <= top.1
      {
        assert t in expenses;
        CategoryHasEntry(expenses, t);
        var c :| 0 <= c < |acc| && acc[c].0 == t.category;
        MonthCategoryEntry(sorted, m0, c);
      }
    }
  }

  // ---------------------------------------------------------------------------
  // the suggested budget

  datatype Suggestion = Suggestion(category: string, amount: int)

  /** `Math.max(0, Math.round(avg * 0.9))` with `avg` the mean of the two
      months' spending in the category. */
  function SuggestedAmount(exCat0: int, exCat1: int): int
  {
    var avg := (exCat0 + exCat1) as real / 2.0;
    var r := Round(avg * 0.9);
    if r > 0 then r else 0
  }

  /** Never negative, 0 when the two months spent nothing in all, and
      otherwise nine tenths of the average to the nearest unit. */
  lemma SuggestedAmountBand(exCat0: int, exCat1: int)
    ensures var a := SuggestedAmount(exCat0, exCat1);
      && a >= 0
      && (exCat0 + exCat1 <= 0 ==> a == 0)
      && (exCat0 + exCat1 > 0 ==> -10 < 20 * a - 9 * (exCat0 + exCat1) <= 10)
  {
    var s := exCat0 + exCat1;
    var x := s as real / 2.0 * 0.9;
    var r := Round(x);
    assert x * 20.0 == 9.0 * s as real;
    assert (20 * r) as real - 10.0 <= 9.0 * s as real < (20 * r) as real + 10.0;
  }

  datatype Insights = Insights(
    month: Option<string>,
    in0: int,
    ex0: int,
    deltaEx: int,
    deltaPct: real,
    topCat: Option<(string, int)>,
    suggestedBudget: Option<Suggestion>)

  /** `insights` for the list. */
  function InsightsOf(ts: seq<Transaction>): Insights
  {
    var sorted := ByDateDesc(ts);
    var months := Months(sorted);
    var m0 := MonthAt(months, 0);
    var m1 := MonthAt(months, 1);
    var ex0 := SumBy(sorted, InMonthOfKind(m0, Expense));
    var ex1 := if Present(m1) then SumBy(sorted, InMonthOfKind(m1, Expense)) else 0;
    var deltaEx := DeltaEx(m1, ex0, ex1);
    var top := TopEntry(CategoryTotals(Filter(sorted, InMonthOfKind(m0, Expense))));
    Insights(
      m0,
      SumBy(sorted, InMonthOfKind(m0, Income)),
      ex0,
      deltaEx,
      DeltaPct(m1, deltaEx, ex1),
      top,
      if top.Some? && Present(m1) then
        var cat := top.value.0;
        Some(Suggestion(cat, SuggestedAmount(SumBy(sorted, InMonthCategory(m0, cat)), SumBy(sorted, InMonthCategory(m1, cat)))))
      else None)
  }

  /** The `useMemo` computing the insights: the category totals filled by
      a loop, the suggestion assigned only when there is a top category and
      a month before. */
  method ComputeInsights(ts: seq<Transaction>) returns (r: Insights)
    ensures r == InsightsOf(ts)
  {
    var sorted := ByDateDesc(ts);
    var months := Months(sorted);
    var m0 := MonthAt(months, 0);
    var m1 := MonthAt(months, 1);
    var in0 := SumBy(sorted, InMonthOfKind(m0, Income));
    var ex0 := SumBy(sorted, InMonthOfKind(m0, Expense));
    var ex1 := if Present(m1) then SumBy(sorted, InMonthOfKind(m1, Expense)) else 0;
    var deltaEx := DeltaEx(m1, ex0, ex1);
    var catMap := MonthCategoryTotals(sorted, m0);
    var top := TopEntry(catMap);
    var suggested: Option<Suggestion> := None;
    if top.Some? && Present(m1) {
      var cat := top.value.0;
      var exCat0 := SumBy(sorted, InMonthCategory(m0, cat));
      var exCat1 := SumBy(sorted, InMonthCategory(m1, cat));
      suggested := Some(Suggestion(cat, SuggestedAmount(exCat0, exCat1)));
    }
    r := Insights(m0, in0, ex0, deltaEx, DeltaPct(m1, deltaEx, ex1), top, suggested);
  }

  /** The newest month's income and expense are those of the whole list in
      that month; a suggestion exists exactly when there is a top category
      and a month before, and it is for the top category. */
  lemma InsightsFacts(ts: seq<Transaction>)
    ensures var r := InsightsOf(ts);
      var m0 := MonthAt(Months(ByDateDesc(ts)), 0);
      var m1 := MonthAt(Months(ByDateDesc(ts)), 1);
      && r.month == m0
      && r.in0 == SumBy(ts, InMonthOfKind(m0, Income))
      && r.ex0 == SumBy(ts, InMonthOfKind(m0, Expense))
      && (r.suggestedBudget.Some? <==> r.topCat.Some? && Present(m1))
      && (r.suggestedBudget.Some? ==> r.suggestedBudget.value.category == r.topCat.value.0 && r.suggestedBudget.value.amount >= 0)
  {
    var m0 := MonthAt(Months(ByDateDesc(ts)), 0);
    SortedSumBy(ts, InMonthOfKind(m0, Income));
    SortedSumBy(ts, InMonthOfKind(m0, Expense));
  }
}
