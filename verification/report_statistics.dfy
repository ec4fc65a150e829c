/** The statistics card of the reports page (`ReportStatistics`): totals of
    the positive income and expense amounts, savings rate, average and median,
    per-category spending, the top category, the categories over budget and
    the growth of this month's spending over last month's. "Now" (year and
    month index) is a parameter; amounts are whole numbers and every division
    is exact before `Math.round`. */
module ReportStatistics {
  import opened Common
  import opened Text
  import opened ExpenseTypes
  import opened Calendar

  datatype TopCategory = TopCategory(name: string, amount: int)

  datatype Stats = Stats(
    totalIncome: int,
    totalExpense: int,
    balance: int,
    avgTransaction: int,
    avgDailyExpense: int,
    topCategory: TopCategory,
    overBudgetCount: nat,
    incomeCount: nat,
    expenseCount: nat,
    totalCount: nat,
    savingsRate: int,
    growthRate: int,
    medianExpense: int)

  const NoTop := TopCategory("-", 0)

  /** The statistics of an empty list. */
  const EmptyStats := Stats(0, 0, 0, 0, 0, NoTop, 0, 0, 0, 0, 0, 0, 0)

  // ---------------------------------------------------------------------------
  // totals

  predicate CountedIncome(t: Transaction)
  {
    t.kind == Income && t.amount > 0
  }

  predicate CountedExpense(t: Transaction)
  {
    t.kind == Expense && t.amount > 0
  }

  /** A transaction's part in the income total and in the expense total. */
  function IncomePart(t: Transaction): int
  {
    if t.kind == Income && t.amount > 0 then t.amount else 0
  }

  function ExpensePart(t: Transaction): int
  {
    if t.kind == Expense && t.amount > 0 then t.amount else 0
  }

  /** The totals count only positive amounts of their type: each is the sum
      over the whole list of the transactions' parts, and neither is
      negative. */
  lemma TotalsCountPositiveOnly(ts: seq<Transaction>)
    ensures Total(Filter(ts, CountedIncome)) == SumOf(ts, IncomePart)
    ensures Total(Filter(ts, CountedExpense)) == SumOf(ts, ExpensePart)
    ensures Total(Filter(ts, CountedIncome)) >= 0 && Total(Filter(ts, CountedExpense)) >= 0
  {
    SumOfFilter(ts, CountedIncome, AmountOf);
    SumOfPointwise(ts, Masked(CountedIncome, AmountOf), IncomePart);
    SumOfFilter(ts, CountedExpense, AmountOf);
    SumOfPointwise(ts, Masked(CountedExpense, AmountOf), ExpensePart);
    PositiveTotal(Filter(ts, CountedIncome));
    PositiveTotal(Filter(ts, CountedExpense));
  }

  lemma PositiveTotal(ts: seq<Transaction>)
    requires forall t :: t in ts ==> t.amount > 0
    ensures Total(ts) >= |ts|
  {
    if ts != [] {
      assert ts[0] in ts;
      PositiveTotal(ts[1..]);
    }
  }

  /** `savingsRate`: the share of income not spent, in percent, rounded;
      zero without income. */
  function SavingsRate(income: int, expense: int): int
  {
    if income > 0 then Round((income - expense) as real / income as real * 100.0) else 0
  }

  /** With some income and no more spending than income, the rate is a
      percentage; with nothing spent it is 100. */
  lemma SavingsRateBounds(income: int, expense: int)
    requires income > 0 && 0 <= expense <= income
    ensures 0 <= SavingsRate(income, expense) <= 100
    ensures expense == 0 ==> SavingsRate(income, expense) == 100
  {
    var x := (income - expense) as real / income as real * 100.0;
    assert 0.0 <= x <= 100.0 by {
      assert (income - expense) as real <= income as real;
    }
    if expense == 0 {
      assert x == 100.0;
    }
  }

  // ---------------------------------------------------------------------------
  // median

  function SortedAmounts(expenses: seq<Transaction>): (s: seq<int>)
    ensures multiset(s) == multiset(Map(expenses, AmountOf))
    ensures forall i, j :: 0 <= i < j < |s| ==> s[i] <= s[j]
  {
    var s := SortBy(Map(expenses, AmountOf), (x: int) => x as real);
    assert forall i, j :: 0 <= i < j < |s| ==> s[i] as real <= s[j] as real;
    s
  }

  /** `medianExpense`: the amount at index ⌊n/2⌋ of the ascending amounts,
      or 0 when there are none. */
  function Median(expenses: seq<Transaction>): int
  {
    var s := SortedAmounts(expenses);
    if |s| > 0 then s[|s| / 2] else 0
  }

  function Below(m: int): int -> bool
  {
    (x: int) => x < m
  }

  function Above(m: int): int -> bool
  {
    (x: int) => x > m
  }

  /** The median is one of the amounts, at most ⌊n/2⌋ amounts lie below it
      and at most ⌊(n-1)/2⌋ above it. */
  lemma MedianSplits(expenses: seq<Transaction>)
    requires expenses != []
    ensures var a := Map(expenses, AmountOf);
      && Median(expenses) in a
      && |Filter(a, Below(Median(expenses)))| <= |a| / 2
      && |Filter(a, Above(Median(expenses)))| <= (|a| - 1) / 2
  {
    var a := Map(expenses, AmountOf);
    var s := SortedAmounts(expenses);
    assert |s| == |a| by {
      assert |multiset(s)| == |multiset(a)|;
    }
    var m := s[|s| / 2];
    assert m in multiset(a) by {
      assert m in multiset(s);
    }
    FilterCountPermutation(a, s, Below(m));
    FilterCountPermutation(a, s, Above(m));
    SortedBelow(s, |s| / 2);
    SortedAbove(s, |s| / 2);
  }

  lemma SortedBelow(s: seq<int>, k: int)
    requires 0 <= k < |s|
    requires forall i, j :: 0 <= i < j < |s| ==> s[i] <= s[j]
    ensures |Filter(s, Below(s[k]))| <= k
  {
    var lo, hi := s[..k], s[k..];
    assert s == lo + hi;
    assert forall i :: 0 <= i < |hi| ==> !Below(s[k])(hi[i]) by {
      forall i | 0 <= i < |hi| ensures hi[i] >= s[k] {
        assert hi[i] == s[k + i];
      }
    }
    CountOutside(lo, hi, Below(s[k]));
  }

  lemma SortedAbove(s: seq<int>, k: int)
    requires 0 <= k < |s|
    requires forall i, j :: 0 <= i < j < |s| ==> s[i] <= s[j]
    ensures |Filter(s, Above(s[k]))| <= |s| - k - 1
  {
    var lo, hi := s[..k + 1], s[k + 1..];
    assert s == lo + hi;
    assert forall i :: 0 <= i < |lo| ==> !Above(s[k])(lo[i]) by {
      forall i | 0 <= i < |lo| ensures lo[i] <= s[k] {
        assert lo[i] == s[i];
      }
    }
    CountOutsidePrefix(lo, hi, Above(s[k]));
  }

  /** When no element of `b` passes, at most `|a|` elements of `a + b` do. */
  lemma CountOutside(a: seq<int>, b: seq<int>, p: int -> bool)
    requires forall i :: 0 <= i < |b| ==> !p(b[i])
    ensures |Filter(a + b, p)| <= |a|
  {
    FilterConcat(a, b, p);
    FilterNone(b, p);
  }

  /** When no element of `a` passes, at most `|b|` elements of `a + b` do. */
  lemma CountOutsidePrefix(a: seq<int>, b: seq<int>, p: int -> bool)
    requires forall i :: 0 <= i < |a| ==> !p(a[i])
    ensures |Filter(a + b, p)| <= |b|
  {
    FilterConcat(a, b, p);
    FilterNone(a, p);
  }

  /** A filter keeps as many elements of a list as of any rearrangement of it. */
  lemma FilterCountPermutation<T>(a: seq<T>, b: seq<T>, p: T -> bool)
    requires multiset(a) == multiset(b)
    ensures |Filter(a, p)| == |Filter(b, p)|
  {
    FilterMultiset(a, p);
    FilterMultiset(b, p);
    assert multiset(Filter(a, p)) == multiset(Filter(b, p));
    assert |multiset(Filter(a, p))| == |Filter(a, p)|;
    assert |multiset(Filter(b, p))| == |Filter(b, p)|;
  }

  // ---------------------------------------------------------------------------
  // spending per category and the top category

  /** `topCategory`: scanning the entries in order from `{'-', 0}` and
      taking an entry only when it is strictly greater, so the first of the
      greatest wins, and nothing that is not positive ever does. */
  function TopOf(acc: seq<(string, int)>): (r: TopCategory)
    ensures r.amount >= 0
    ensures forall j :: 0 <= j < |acc| ==> acc[j].1 <= r.amount
    ensures r.amount == 0 ==> r == NoTop
    ensures r.amount > 0 ==>
      exists i :: 0 <= i < |acc| && acc[i] == (r.name, r.amount) && forall j :: 0 <= j < i ==> acc[j].1 < r.amount
  {
    if acc == [] then NoTop
    else
      var init := acc[..|acc| - 1];
      var last := acc[|acc| - 1];
      var prev := TopOf(init);
      assert forall j :: 0 <= j < |init| ==> acc[j] == init[j];
      if last.1 > prev.amount then
        TopCategory(last.0, last.1)
      else
        assert prev.amount > 0 ==>
          (exists i :: 0 <= i < |acc| && acc[i] == (prev.name, prev.amount) && (forall j :: 0 <= j < i ==> acc[j].1 < prev.amount));
        prev
  }

  method TopCategoryOf(acc: seq<(string, int)>) returns (top: TopCategory)
    ensures top == TopOf(acc)
  {
    top := NoTop;
    for i := 0 to |acc|
      invariant top == TopOf(acc[..i])
    {
      assert acc[..i + 1][..i] == acc[..i];
      if acc[i].1 > top.amount {
        top := TopCategory(acc[i].0, acc[i].1);
      }
    }
    assert acc[..|acc|] == acc;
  }

  // ---------------------------------------------------------------------------
  // categories over budget

  /** A category with a positive budget and more spending than it. */
  predicate OverBudget(spending: seq<(string, int)>, c: Category)
  {
    c.budget.Some? && c.budget.value > 0 && Lookup(spending, c.name) > c.budget.value
  }

  function OverBudgetIn(spending: seq<(string, int)>): Category -> bool
  {
    (c: Category) => OverBudget(spending, c)
  }

  /** The categories counted as over budget are exactly those with a
      positive budget whose expenses add up to more than it. */
  lemma OverBudgetExactly(expenses: seq<Transaction>, categories: seq<Category>, c: Category)
    ensures c in Filter(categories, OverBudgetIn(CategoryTotals(expenses))) <==>
      c in categories && c.budget.Some? && c.budget.value > 0
      && Total(Filter(expenses, InCategory(c.name))) > c.budget.value
  {
    CategoryTotalIsSum(expenses, c.name);
  }

  // ---------------------------------------------------------------------------
  // month over month

  /** The month before `(year, monthIndex)`: January goes back to December
      of the year before. */
  function PreviousMonth(year: int, monthIndex: int): (int, int)
  {
    if monthIndex == 0 then (year - 1, 11) else (year, monthIndex - 1)
  }

  /** Counting months from year 0, the previous month is one less, and its
      index is a month index. */
  lemma PreviousMonthIsOneBefore(year: int, monthIndex: int)
    requires 0 <= monthIndex < 12
    ensures var p := PreviousMonth(year, monthIndex);
      0 <= p.1 < 12 && p.0 * 12 + p.1 == year * 12 + monthIndex - 1
  {
  }

  /** The expense falls in that month of that year (an unreadable date falls
      in none). */
  function InMonth(year: int, monthIndex: int): Transaction -> bool
  {
    (t: Transaction) => match ParseYmd(t.date)
      case Some(d) => d.month - 1 == monthIndex && d.year == year
      case None => false
  }

  function MonthExpense(expenses: seq<Transaction>, year: int, monthIndex: int): int
  {
    Total(Filter(expenses, InMonth(year, monthIndex)))
  }

  /** `growthRate`: the change in percent, rounded; zero when last month had
      no spending. */
  function GrowthRate(current: int, last: int): int
  {
    if last > 0 then Round((current - last) as real / last as real * 100.0) else 0
  }

  /** Growth is positive exactly when this month's spending is more than
      half a percent above last month's, and -100 when nothing was spent this
      month. */
  lemma GrowthRateSign(current: int, last: int)
    requires last > 0
    ensures current == last ==> GrowthRate(current, last) == 0
    ensures current == 0 ==> GrowthRate(current, last) == -100
    ensures GrowthRate(current, last) > 0 <==> (current - last) as real * 200.0 >= last as real
  {
    var d, b := (current - last) as real, last as real;
    var q := d / b;
    var r := GrowthRate(current, last);
    assert r == Round(q * 100.0);
    assert r > 0 <==> q >= 0.005;
    AtLeastShare(d, b, 0.005);
    if current == last {
      assert d == 0.0;
    }
    if current == 0 {
      assert d == -b && q * b == d;
      assert (q + 1.0) * b == 0.0;
    }
  }

  // ---------------------------------------------------------------------------
  // the whole card

  function DayOf(t: Transaction): Option<Date>
  {
    ParseYmd(t.date)
  }

  /** `stats` for the list, the categories and the current month. */
  function StatsOf(ts: seq<Transaction>, categories: seq<Category>, year: int, monthIndex: int): (r: Stats)
  {
    if ts == [] then EmptyStats
    else
      var incomes := Filter(ts, CountedIncome);
      var expenses := Filter(ts, CountedExpense);
      var income := Total(incomes);
      var expense := Total(expenses);
      var days := Distinct(Map(ts, DayOf));
      assert DayOf(ts[0]) in days by {
        assert Map(ts, DayOf)[0] == DayOf(ts[0]);
      }
      var spending := CategoryTotals(expenses);
      var previous := PreviousMonth(year, monthIndex);
      Stats(
        income,
        expense,
        income - expense,
        Round(Total(ts) as real / |ts| as real),
        Round(expense as real / |days| as real),
        TopOf(spending),
        |Filter(categories, OverBudgetIn(spending))|,
        |incomes|,
        |expenses|,
        |ts|,
        SavingsRate(income, expense),
        GrowthRate(MonthExpense(expenses, year, monthIndex), MonthExpense(expenses, previous.0, previous.1)),
        Median(expenses))
  }

  /** An empty list gives all zeros and the placeholder top category. */
  lemma EmptyListStats(categories: seq<Category>, year: int, monthIndex: int)
    ensures StatsOf([], categories, year, monthIndex) == EmptyStats
    ensures EmptyStats.topCategory.name == "-"
  {
  }

  /** On a list that is not empty: the balance is income less expense, the
      counts are those of the positive transactions of each type, the savings
      rate is zero without income, and the top category is the first with
      the greatest spending. */
  lemma StatsOfList(ts: seq<Transaction>, categories: seq<Category>, year: int, monthIndex: int)
    requires ts != []
    ensures var r := StatsOf(ts, categories, year, monthIndex);
      && r.balance == r.totalIncome - r.totalExpense
      && r.totalCount == |ts|
      && r.incomeCount + r.expenseCount <= |ts|
      && r.totalIncome >= r.incomeCount && r.totalExpense >= r.expenseCount
      && (r.totalIncome == 0 ==> r.savingsRate == 0)
      && r.topCategory == TopOf(CategoryTotals(Filter(ts, CountedExpense)))
      && r.medianExpense == Median(Filter(ts, CountedExpense))
  {
    var incomes := Filter(ts, CountedIncome);
    var expenses := Filter(ts, CountedExpense);
    PositiveTotal(incomes);
    PositiveTotal(expenses);
    IncomeExpenseDisjoint(ts);
  }

  lemma {:induction false} IncomeExpenseDisjoint(ts: seq<Transaction>)
    ensures |Filter(ts, CountedIncome)| + |Filter(ts, CountedExpense)| <= |ts|
  {
    if ts != [] {
      IncomeExpenseDisjoint(ts[1..]);
    }
  }
}
