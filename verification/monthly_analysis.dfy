/** The month-over-month analysis (`MonthlyAnalysis`): this month's and last
    month's income, expense and saving, optionally for one category; the
    percentage change of each; the categories close to their budget; the
    category with the most spending this month and the one with the most
    budget left. "Now" is a parameter (the UTC calendar date); the changes and
    ratios are exact numbers. */
module MonthlyAnalysis {
  import opened Common
  import opened Text
  import opened ExpenseTypes
  import opened Calendar
  import opened MonthlySummary

  // ---------------------------------------------------------------------------
  // the two months

  /** `new Date(now.getFullYear(), now.getMonth() - 1, 1)`: the first of the
      month before, the month index counted from 0. */
  function LastMonthDate(now: Date): (r: Date)
    ensures ValidDate(r)
  {
    MakeDate(ConstructorYear(now.year), now.month - 2, 1)
  }

  /** The first of last month: December of the year before in January, the
      previous month of the same year otherwise. */
  lemma LastMonthIsPrevious(now: Date)
    requires ValidDate(now) && now.year >= 100
    ensures LastMonthDate(now) == if now.month == 1 then Date(now.year - 1, 12, 1) else Date(now.year, now.month - 1, 1)
  {
    if now.month == 1 {
      assert (now.month - 2) / 12 == -1 && (now.month - 2) % 12 == 11;
      NormalizeValid(Date(now.year - 1, 12, 1));
    } else {
      assert (now.month - 2) / 12 == 0 && (now.month - 2) % 12 == now.month - 2;
      NormalizeValid(Date(now.year, now.month - 1, 1));
    }
  }

  /** `filterByCategory`: everything for `'all'`, otherwise the transactions
      of the selected category. */
  function ByCategory(selected: string, ts: seq<Transaction>): (r: seq<Transaction>)
    ensures selected == "all" ==> r == ts
    ensures selected != "all" ==> forall t :: t in r <==> t in ts && t.category == selected
  {
    if selected == "all" then ts else Filter(ts, InCategory(selected))
  }

  function CurrentTransactions(ts: seq<Transaction>, selected: string, now: Date): seq<Transaction>
    requires ValidDate(now)
  {
    ByCategory(selected, MonthTransactions(ts, now))
  }

  function LastTransactions(ts: seq<Transaction>, selected: string, now: Date): seq<Transaction>
    requires ValidDate(now)
  {
    ByCategory(selected, MonthTransactions(ts, LastMonthDate(now)))
  }

  /** A transaction with a readable date is counted for this month exactly
      when it falls in this month and the selected category. */
  lemma CurrentMonthMembership(ts: seq<Transaction>, selected: string, now: Date, t: Transaction)
    requires ValidDate(now) && 0 <= now.year <= 9999
    requires ParseYmd(t.date).Some?
    ensures var d := ParseYmd(t.date).value;
      t in CurrentTransactions(ts, selected, now) <==>
        t in ts && d.year == now.year && d.month == now.month && (selected == "all" || t.category == selected)
  {
    MonthTransactionsExactly(ts, now, t);
  }

  /** A transaction with a readable date is counted for last month exactly
      when it falls in the calendar month before this one and the selected
      category. */
  lemma LastMonthMembership(ts: seq<Transaction>, selected: string, now: Date, t: Transaction)
    requires ValidDate(now) && 100 <= now.year <= 9999
    requires ParseYmd(t.date).Some?
    ensures var d := ParseYmd(t.date).value;
      t in LastTransactions(ts, selected, now) <==>
        t in ts && (selected == "all" || t.category == selected) &&
        (if now.month == 1 then d.year == now.year - 1 && d.month == 12
         else d.year == now.year && d.month == now.month - 1)
  {
    LastMonthIsPrevious(now);
    MonthTransactionsExactly(ts, LastMonthDate(now), t);
  }

  // ---------------------------------------------------------------------------
  // the figures and their changes

  datatype Figures = Figures(income: int, expense: int, saving: int)

  function FiguresOf(ts: seq<Transaction>): (r: Figures)
  {
    var income := Total(Filter(ts, OfKind(Income)));
    var expense := Total(Filter(ts, OfKind(Expense)));
    Figures(income, expense, income - expense)
  }

  /** `incomeChange` and `expenseChange`: the change from last month as a
      percentage of last month, 0 when last month had nothing. */
  function Change(current: int, last: int): real
  {
    if last > 0 then (current - last) as real / last as real * 100.0 else 0.0
  }

  /** Growing last month's figure by the change gives this month's; the
      change is positive exactly when the figure grew. */
  lemma ChangeRecovers(current: int, last: int)
    ensures last <= 0 ==> Change(current, last) == 0.0
    ensures last > 0 ==> last as real + last as real * Change(current, last) / 100.0 == current as real
    ensures last > 0 ==> (Change(current, last) > 0.0 <==> current > last)
    ensures last > 0 ==> (Change(current, last) < 0.0 <==> current < last)
  {
    if last > 0 {
      var q := (current - last) as real / last as real;
      assert q * last as real == (current - last) as real;
      assert Change(current, last) == q * 100.0;
    }
  }

  /** `savingChange`: the change of the saving as a percentage of the size
      of last month's saving (which may be negative), 0 when it was zero. */
  function SavingChange(current: int, last: int): real
  {
    if last != 0 then (current - last) as real / Abs(last) as real * 100.0 else 0.0
  }

  function Abs(x: int): nat
  {
    if x < 0 then -x else x
  }

  /** Dividing by the size rather than the value keeps the sign right: the
      change is positive exactly when more was saved than last month, even
      after a month of overspending. */
  lemma SavingChangeRecovers(current: int, last: int)
    ensures last == 0 ==> SavingChange(current, last) == 0.0
    ensures last != 0 ==> last as real + Abs(last) as real * SavingChange(current, last) / 100.0 == current as real
    ensures last != 0 ==> (SavingChange(current, last) > 0.0 <==> current > last)
    ensures last != 0 ==> (SavingChange(current, last) < 0.0 <==> current < last)
  {
    if last != 0 {
      var q := (current - last) as real / Abs(last) as real;
      assert q * Abs(last) as real == (current - last) as real;
      assert SavingChange(current, last) == q * 100.0;
    }
  }

  datatype Comparison = Comparison(incomeChange: real, expenseChange: real, savingChange: real)

  // ---------------------------------------------------------------------------
  // categories close to their budget

  /** `c.budget && c.spent && c.spent / c.budget > 0.9` */
  predicate Dangerous(c: Category)
  {
    Truthy(c.budget) && Truthy(c.spent) && c.spent.value as real / c.budget.value as real > 0.9
  }

  /** `(c.spent || 0) / (c.budget || 1)` */
  function Ratio(c: Category): real
  {
    GetOr(c.spent, 0) as real / (if Truthy(c.budget) then c.budget.value as real else 1.0)
  }

  function RatioDesc(c: Category): real
  {
    -Ratio(c)
  }

  /** `dangerousCategories`: the categories past 90 percent of their budget,
      the most used first. */
  function DangerousCategories(categories: seq<Category>): seq<Category>
  {
    SortBy(Filter(categories, Dangerous), RatioDesc)
  }

  /** Exactly the categories past 90 percent, each as often as it occurs,
      ordered by the share of the budget they used, largest first. */
  lemma DangerousOrdered(categories: seq<Category>)
    ensures var r := DangerousCategories(categories);
      && (forall c :: c in r <==> c in categories && Dangerous(c))
      && multiset(r) == multiset(Filter(categories, Dangerous))
      && (forall c :: c in r ==> Ratio(c) > 0.9)
      && (forall i, j :: 0 <= i < j < |r| ==> Ratio(r[j]) <= Ratio(r[i]))
  {
    var f := Filter(categories, Dangerous);
    var r := DangerousCategories(categories);
    forall c | c in r ensures c in f {
      assert c in multiset(r);
    }
    forall c | c in f ensures c in r {
      assert c in multiset(f);
    }
    forall i, j | 0 <= i < j < |r| ensures Ratio(r[j]) <= Ratio(r[i]) {
      assert RatioDesc(r[i]) <= RatioDesc(r[j]);
    }
  }

  // ---------------------------------------------------------------------------
  // the category with the most spending

  /** `topExpenseCategory`: none exactly when the month has no expense;
      otherwise a category of the month's expenses whose amount is its sum,
      and no category's sum is larger. */
  lemma TopExpenseIsLargest(expenses: seq<Transaction>)
    ensures TopEntry(CategoryTotals(expenses)) == None <==> expenses == []
    ensures var r := TopEntry(CategoryTotals(expenses));
      r.Some? ==>
        && (exists t :: t in expenses && t.category == r.value.0)
        && r.value.1 == Total(Filter(expenses, InCategory(r.value.0)))
        && (forall t :: t in expenses ==> Total(Filter(expenses, InCategory(t.category))) <= r.value.1)
  {
    var acc := CategoryTotals(expenses);
    TopEntryIsLargest(acc);
    if expenses != [] {
      CategoryHasEntry(expenses, expenses[0]);
    }
    if acc != [] {
      var top := TopEntry(acc).value;
      var k :| 0 <= k < |acc| && acc[k] == top;
      CategoryTotalsEntry(expenses, k);
      EntryHasCategory(expenses, k);
      forall t | t in expenses ensures Total(Filter(expenses, InCategory(t.category))) <= top.1 {
        CategoryHasEntry(expenses, t);
        var j :| 0 <= j < |acc| && acc[j].0 == t.category;
        CategoryTotalsEntry(expenses, j);
      }
    }
  }

  // ---------------------------------------------------------------------------
  // the category with the most budget left

  datatype Saving = Saving(name: string, remaining: int, percentage: real)

  /** `c.budget && c.spent !== undefined` */
  predicate HasSpendingAndBudget(c: Category)
  {
    Truthy(c.budget) && c.spent.Some?
  }

  /** The budget left and its share of the budget, the missing numbers read
      as in the source (`budget || 0`, `spent || 0`, `budget || 1`). */
  function SavingOf(c: Category): Saving
  {
    var left := GetOr(c.budget, 0) - GetOr(c.spent, 0);
    Saving(c.name, left, left as real / (if Truthy(c.budget) then c.budget.value as real else 1.0) * 100.0)
  }

  /** For a category with a budget, the share is the budget left over the
      budget, as a percentage. */
  lemma SavingShare(c: Category)
    requires HasSpendingAndBudget(c)
    ensures SavingOf(c).remaining == c.budget.value - c.spent.value
    ensures SavingOf(c).percentage * c.budget.value as real / 100.0 == SavingOf(c).remaining as real
  {
    var s := SavingOf(c);
    var q := s.remaining as real / c.budget.value as real;
    assert q * c.budget.value as real == s.remaining as real;
  }

  function RemainingDesc(s: Saving): real
  {
    -(s.remaining as real)
  }

  /** `topSavingCategory`: the first after sorting by budget left, largest
      first, or nothing. */
  function TopSaving(categories: seq<Category>): Option<Saving>
  {
    var savings := Map(Filter(categories, HasSpendingAndBudget), SavingOf);
    if savings == [] then None else Some(SortBy(savings, RemainingDesc)[0])
  }

  /** None exactly when no category has both a budget and a spending
      figure; otherwise one of those categories' savings, with no such
      category having more budget left. */
  lemma TopSavingIsLargest(categories: seq<Category>)
    ensures TopSaving(categories) == None <==> forall c :: c in categories ==> !HasSpendingAndBudget(c)
    ensures var r := TopSaving(categories);
      r.Some? ==>
        && (exists c :: c in categories && HasSpendingAndBudget(c) && SavingOf(c) == r.value)
        && (forall c :: c in categories && HasSpendingAndBudget(c) ==> SavingOf(c).remaining <= r.value.remaining)
  {
    var f := Filter(categories, HasSpendingAndBudget);
    var savings := Map(f, SavingOf);
    if f != [] {
      assert f[0] in f;
    }
    forall c | c in categories && HasSpendingAndBudget(c) ensures savings != [] {
      assert c in f;
    }
    if savings != [] {
      SortByFirstIsLeast(savings, RemainingDesc);
      var top := SortBy(savings, RemainingDesc)[0];
      var k :| 0 <= k < |savings| && savings[k] == top;
      assert f[k] in f;
      forall c | c in categories && HasSpendingAndBudget(c) ensures SavingOf(c).remaining <= top.remaining {
        assert c in f;
        var j :| 0 <= j < |f| && f[j] == c;
        assert savings[j] in savings;
      }
    }
  }

  // ---------------------------------------------------------------------------
  // the whole analysis

  datatype Analysis = Analysis(
    current: Figures,
    last: Figures,
    comparison: Comparison,
    dangerous: seq<Category>,
    topExpense: Option<(string, int)>,
    topSaving: Option<Saving>)

  /** The memoised analysis for the list, the categories, the selected
      category and now. */
  function AnalysisOf(ts: seq<Transaction>, categories: seq<Category>, selected: string, now: Date): (r: Analysis)
    requires ValidDate(now)
  {
    var current := CurrentTransactions(ts, selected, now);
    var cur := FiguresOf(current);
    var last := FiguresOf(LastTransactions(ts, selected, now));
    Analysis(
      cur,
      last,
      Comparison(Change(cur.income, last.income), Change(cur.expense, last.expense), SavingChange(cur.saving, last.saving)),
      DangerousCategories(categories),
      TopEntry(CategoryTotals(Filter(current, OfKind(Expense)))),
      TopSaving(categories))
  }

  /** The `useMemo` computing the analysis: the figures of both months,
      then `categoryExpenses` filled by a `forEach` over this month's
      expenses, and the top entry taken from it. */
  method ComputeAnalysis(ts: seq<Transaction>, categories: seq<Category>, selected: string, now: Date) returns (r: Analysis)
    requires ValidDate(now)
    ensures r == AnalysisOf(ts, categories, selected, now)
  {
    var current := CurrentTransactions(ts, selected, now);
    var cur := FiguresOf(current);
    var last := FiguresOf(LastTransactions(ts, selected, now));
    var comparison := Comparison(Change(cur.income, last.income), Change(cur.expense, last.expense), SavingChange(cur.saving, last.saving));
    var expenses := Filter(current, OfKind(Expense));
    var categoryExpenses: seq<(string, int)> := [];
    for i := 0 to |expenses|
      invariant categoryExpenses == CategoryTotals(expenses[..i])
    {
      assert Map(expenses[..i + 1], CategoryAmount)[..i] == Map(expenses[..i], CategoryAmount);
      categoryExpenses := AddTo(categoryExpenses, expenses[i].category, expenses[i].amount);
    }
    assert expenses[..|expenses|] == expenses;
    r := Analysis(cur, last, comparison, DangerousCategories(categories), TopEntry(categoryExpenses), TopSaving(categories));
  }

  /** An empty list shows nothing for either month, no change and no top
      expense; the budget-based parts depend on the categories alone. */
  lemma EmptyListAnalysis(categories: seq<Category>, selected: string, now: Date)
    requires ValidDate(now)
    ensures var r := AnalysisOf([], categories, selected, now);
      && r.current == r.last == Figures(0, 0, 0)
      && r.comparison == Comparison(0.0, 0.0, 0.0)
      && r.topExpense == None
  {
    TopExpenseIsLargest([]);
  }
}
