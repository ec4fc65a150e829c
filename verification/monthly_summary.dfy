/** The "this month" card (`MonthlySummary`): the transactions of the
    current `YYYY-MM`, their income and expense, the three categories with
    the most spending, the days left in the month, the budget used and what
    is left to spend per day, and the colour of the budget state. "Today" is
    a parameter; percentages and per-day figures are exact numbers. */
module MonthlySummary {
  import opened Common
  import opened Text
  import opened ExpenseTypes
  import opened Calendar

  /** `t.date.startsWith(currentMonth)` */
  function InMonthOf(key: string): Transaction -> bool
  {
    (t: Transaction) => StartsWith(t.date, key)
  }

  function MonthTransactions(ts: seq<Transaction>, today: Date): seq<Transaction>
    requires ValidDate(today)
  {
    Filter(ts, InMonthOf(MonthPrefix(today)))
  }

  /** A transaction with a readable date is in this month's list exactly
      when its date falls in today's month and year. */
  lemma MonthTransactionsExactly(ts: seq<Transaction>, today: Date, t: Transaction)
    requires ValidDate(today) && 0 <= today.year <= 9999
    requires ParseYmd(t.date).Some?
    ensures var d := ParseYmd(t.date).value;
      t in MonthTransactions(ts, today) <==> t in ts && d.year == today.year && d.month == today.month
  {
    var d := ParseYmd(t.date).value;
    PrintParsed(t.date);
    assert |t.date| == 10;
    assert IsoDate(today)[..7] == MonthPrefix(today);
    assert StartsWith(t.date, MonthPrefix(today)) <==> MonthPrefix(d) == MonthPrefix(today);
    SameMonthPrefix(d, today);
  }

  // ---------------------------------------------------------------------------
  // the top categories

  datatype Ranked = Ranked(name: string, amount: int, color: string)

  const FallbackColor := "hsl(220, 14%, 50%)"

  function HasName(name: string): Category -> bool
  {
    (c: Category) => c.name == name
  }

  /** `cat?.color || 'hsl(220, 14%, 50%)'` for the first category of that name. */
  function ColorFor(categories: seq<Category>, name: string): (r: string)
    ensures r != ""
  {
    var i := FindIndex(categories, HasName(name));
    if i >= 0 && categories[i].color != "" then categories[i].color else FallbackColor
  }

  /** The entries largest first, the first three. */
  function TopThree(acc: seq<(string, int)>): seq<(string, int)>
  {
    Prefix(ByValueDesc(acc), 3)
  }

  /** `topCategories`: this month's spending per category, the three
      largest, each with its colour. */
  function TopCategories(month: seq<Transaction>, categories: seq<Category>): seq<Ranked>
  {
    var top := TopThree(CategoryTotals(Filter(month, OfKind(Expense))));
    Map(top, (e: (string, int)) => Ranked(e.0, e.1, ColorFor(categories, e.0)))
  }

  /** At most three entries, largest first, each one of the totals, and
      every total left out no larger than the last one shown. */
  lemma TopThreeOrdered(acc: seq<(string, int)>)
    ensures var r := TopThree(acc);
      && |r| <= 3
      && (forall i, j :: 0 <= i < j < |r| ==> r[j].1 <= r[i].1)
      && (forall i :: 0 <= i < |r| ==> r[i] in acc)
      && (forall e :: e in acc ==> e in r || (|r| > 0 && e.1 <= r[|r| - 1].1))
  {
    var sorted := ByValueDesc(acc);
    var r := TopThree(acc);
    assert |sorted| == |acc| by {
      assert |multiset(sorted)| == |multiset(acc)|;
    }
    assert r == sorted[..|r|];
    TopThreeFrom(acc);
    forall e | e in acc ensures e in r || (|r| > 0 && e.1 <= r[|r| - 1].1) {
      assert e in multiset(sorted);
      var k :| 0 <= k < |sorted| && sorted[k] == e;
      if k < |r| {
        assert r[k] == e;
      }
    }
  }

  /** Each of the three is one of the entries. */
  lemma TopThreeFrom(acc: seq<(string, int)>)
    ensures forall i :: 0 <= i < |TopThree(acc)| ==> TopThree(acc)[i] in acc
  {
    var sorted := ByValueDesc(acc);
    forall i | 0 <= i < |TopThree(acc)| ensures TopThree(acc)[i] in acc {
      assert TopThree(acc)[i] == sorted[i] && sorted[i] in multiset(sorted);
    }
  }

  /** An entry of the totals is the sum of its category's expenses. */
  lemma TotalsEntryIsSum(expenses: seq<Transaction>, e: (string, int))
    requires e in CategoryTotals(expenses)
    ensures e.1 == Total(Filter(expenses, InCategory(e.0)))
  {
    var acc := CategoryTotals(expenses);
    var k :| 0 <= k < |acc| && acc[k] == e;
    CategoryTotalsEntry(expenses, k);
  }

  /** The top categories of the month: each amount is the sum of that
      category's expenses this month. */
  lemma TopCategoriesAreTotals(month: seq<Transaction>, categories: seq<Category>)
    ensures var r := TopCategories(month, categories);
      forall i :: 0 <= i < |r| ==> r[i].amount == Total(Filter(Filter(month, OfKind(Expense)), InCategory(r[i].name)))
  {
    var expenses := Filter(month, OfKind(Expense));
    var acc := CategoryTotals(expenses);
    TopThreeFrom(acc);
    var top := TopThree(acc);
    var r := TopCategories(month, categories);
    forall i | 0 <= i < |r|
      ensures r[i].amount == Total(Filter(expenses, InCategory(r[i].name)))
    {
      assert r[i].name == top[i].0 && r[i].amount == top[i].1;
      TotalsEntryIsSum(expenses, top[i]);
    }
  }

  // ---------------------------------------------------------------------------
  // budget

  function BudgetOf(c: Category): int
  {
    GetOr(c.budget, 0)
  }

  predicate HasBudget(c: Category)
  {
    Truthy(c.budget)
  }

  /** `totalBudget`: the sum of the budgets that are set and not zero. */
  function TotalBudget(categories: seq<Category>): int
  {
    SumOf(Filter(categories, HasBudget), BudgetOf)
  }

  /** A category without a budget, or with a zero one, adds nothing: the
      total is the sum of all budgets with a missing one read as zero. */
  lemma TotalBudgetOfAll(categories: seq<Category>)
    ensures TotalBudget(categories) == SumOf(categories, BudgetOf)
  {
    SumOfFilter(categories, HasBudget, BudgetOf);
    SumOfPointwise(categories, Masked(HasBudget, BudgetOf), BudgetOf);
  }

  datatype Summary = Summary(
    income: int,
    expense: int,
    balance: int,
    topCategories: seq<Ranked>,
    daysRemaining: int,
    totalBudget: int,
    budgetUsed: real,
    remaining: int,
    dailyBudgetRemaining: real,
    transactionCount: nat)

  /** `budgetUsed`: the expense as a percentage of the total budget, 0
      without a budget. */
  function BudgetUsed(expense: int, totalBudget: int): real
  {
    if totalBudget > 0 then expense as real / totalBudget as real * 100.0 else 0.0
  }

  /** Spending within a positive budget uses between none and all of it. */
  lemma BudgetUsedBounds(expense: int, totalBudget: int)
    ensures totalBudget <= 0 ==> BudgetUsed(expense, totalBudget) == 0.0
    ensures 0 < totalBudget && 0 <= expense <= totalBudget ==> 0.0 <= BudgetUsed(expense, totalBudget) <= 100.0
  {
    if 0 < totalBudget && 0 <= expense <= totalBudget {
      assert expense as real / totalBudget as real <= 1.0;
    }
  }

  /** `dailyBudgetRemaining`: what is left shared over the days left, 0 when
      none are left. */
  function PerDay(remaining: int, daysRemaining: int): real
  {
    if daysRemaining > 0 then remaining as real / daysRemaining as real else 0.0
  }

  /** Spending the daily amount on every day left uses up exactly what is left. */
  lemma PerDayAddsUp(remaining: int, daysRemaining: int)
    ensures daysRemaining <= 0 ==> PerDay(remaining, daysRemaining) == 0.0
    ensures daysRemaining > 0 ==> PerDay(remaining, daysRemaining) * daysRemaining as real == remaining as real
  {
  }

  /** The days left after today: none on the last day of the month. */
  function DaysRemaining(today: Date): int
    requires ValidDate(today)
  {
    DaysInMonth(today.year, today.month) - today.day
  }

  lemma DaysRemainingRange(today: Date)
    requires ValidDate(today)
    ensures 0 <= DaysRemaining(today) < DaysInMonth(today.year, today.month)
    ensures DaysRemaining(today) == 0 <==> today.day == DaysInMonth(today.year, today.month)
  {
  }

  /** `monthlyData` for the list, the categories and today. */
  function SummaryOf(ts: seq<Transaction>, categories: seq<Category>, today: Date): (r: Summary)
    requires ValidDate(today)
  {
    var month := MonthTransactions(ts, today);
    var income := Total(Filter(month, OfKind(Income)));
    var expense := Total(Filter(month, OfKind(Expense)));
    var totalBudget := TotalBudget(categories);
    Summary(
      income,
      expense,
      income - expense,
      TopCategories(month, categories),
      DaysRemaining(today),
      totalBudget,
      BudgetUsed(expense, totalBudget),
      totalBudget - expense,
      PerDay(totalBudget - expense, DaysRemaining(today)),
      |month|)
  }

  // ---------------------------------------------------------------------------
  // the budget state

  datatype BudgetState = Safe | Warning | Danger

  /** `budgetStatus`: danger above 100 percent, warning above 80. */
  function StatusOf(budgetUsed: real): BudgetState
  {
    if budgetUsed > 100.0 then Danger else if budgetUsed > 80.0 then Warning else Safe
  }

  function Severity(s: BudgetState): nat
  {
    match s
    case Safe => 0
    case Warning => 1
    case Danger => 2
  }

  /** Using more of the budget never makes the state milder, and spending
      within a positive budget is never danger. */
  lemma StatusMonotone(a: real, b: real)
    requires a <= b
    ensures Severity(StatusOf(a)) <= Severity(StatusOf(b))
  {
  }

  lemma WithinBudgetNotDanger(expense: int, totalBudget: int)
    requires 0 < totalBudget && 0 <= expense <= totalBudget
    ensures StatusOf(BudgetUsed(expense, totalBudget)) != Danger
  {
    BudgetUsedBounds(expense, totalBudget);
  }
}
