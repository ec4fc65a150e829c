/** The budget status card (`BudgetStatusCard`): the current week
    (Saturday to Friday) or month, and for every category with a positive
    budget the budget for that period, what was spent in it, what is left,
    the share used, and whether the category is over or near its limit,
    most used first. "Now" is a parameter (a calendar date, time zones left
    out); the share is an exact number. */
module BudgetStatus {
  import opened Common
  import opened Text
  import opened ExpenseTypes
  import opened Calendar

  // ---------------------------------------------------------------------------
  // the period

  datatype BudgetType = Monthly | Weekly

  /** `getDay()`: 0 for Sunday through 6 for Saturday. Day number 0 is
      1 January of year 0, a Saturday. */
  function Weekday(d: Date): (w: int)
    requires 1 <= d.month <= 12
    ensures 0 <= w < 7
  {
    WeekdayOfNumber(DayNumber(d))
  }

  function WeekdayOfNumber(n: int): (w: int)
    ensures 0 <= w < 7
  {
    (n + 6) % 7
  }

  /** 1 January 2024 was a Monday. */
  lemma WeekdayAnchor()
    ensures Weekday(Date(2024, 1, 1)) == 1
  {
  }

  /** `day === 6 ? 0 : day + 1`: the days since the last Saturday. */
  function WeekOffset(weekday: int): int
  {
    if weekday == 6 then 0 else weekday + 1
  }

  /** The offset is a number of days within one week, and stepping back by
      it always lands on a Saturday. */
  lemma WeekOffsetRange(n: int)
    ensures 0 <= WeekOffset(WeekdayOfNumber(n)) < 7
    ensures WeekdayOfNumber(n - WeekOffset(WeekdayOfNumber(n))) == 6
  {
  }

  /** Six days after a Saturday is a Friday. */
  lemma SixDaysOn(n: int)
    requires WeekdayOfNumber(n) == 6
    ensures WeekdayOfNumber(n + 6) == 5
  {
  }

  /** `setDate` with any day moves the day number by the difference. */
  lemma SetDateNumber(d: Date, day: int)
    requires ValidDate(d)
    ensures DayNumber(SetDate(d, day)) == DayNumber(d) + day - d.day
  {
    assert (d.month - 1) / 12 == 0 && (d.month - 1) % 12 == d.month - 1;
    NormalizeDayNumber(Date(d.year, d.month, day));
  }

  /** Stepping back from `now` by its offset lands on the Saturday of its
      week. */
  lemma StepBackToSaturday(now: Date)
    requires ValidDate(now)
    ensures var start := SetDate(now, now.day - WeekOffset(Weekday(now)));
      Weekday(start) == 6 && DayNumber(start) <= DayNumber(now) < DayNumber(start) + 7
  {
    var n := DayNumber(now);
    var diff := WeekOffset(WeekdayOfNumber(n));
    WeekOffsetRange(n);
    SetDateNumber(now, now.day - diff);
    assert DayNumber(SetDate(now, now.day - diff)) == n - diff;
  }

  /** The week containing `now`, Saturday to Friday:
      `startDate.setDate(now.getDate() - diff)`, then
      `endDate.setDate(startDate.getDate() + 6)`. */
  method WeekPeriod(now: Date) returns (start: Date, end: Date)
    requires ValidDate(now)
    ensures ValidDate(start) && ValidDate(end)
    ensures Weekday(start) == 6
    ensures DayNumber(start) <= DayNumber(now) < DayNumber(start) + 7
    ensures DayNumber(end) == DayNumber(start) + 6
  {
    var diff := WeekOffset(Weekday(now));
    start := now;
    start := SetDate(start, now.day - diff);
    StepBackToSaturday(now);
    end := start;
    end := SetDate(end, start.day + 6);
    SetDateNumber(start, start.day + 6);
  }

  /** The month containing `now`: `new Date(y, m, 1)` and `new Date(y, m + 1, 0)`,
      its first and last day. */
  method MonthPeriod(now: Date) returns (start: Date, end: Date)
    requires ValidDate(now)
    ensures var y := ConstructorYear(now.year);
      start == Date(y, now.month, 1) && end == Date(y, now.month, DaysInMonth(y, now.month))
  {
    var y := ConstructorYear(now.year);
    start := MakeDate(y, now.month - 1, 1);
    assert (now.month - 1) / 12 == 0 && (now.month - 1) % 12 == now.month - 1;
    NormalizeValid(Date(y, now.month, 1));
    end := MakeDate(y, now.month, 0);
    LastDayOf(y, now.month);
  }

  /** The last day of a week period is a Friday. */
  lemma WeekEndsOnFriday(start: Date, end: Date)
    requires ValidDate(start) && ValidDate(end)
    requires Weekday(start) == 6 && DayNumber(end) == DayNumber(start) + 6
    ensures Weekday(end) == 5
  {
    SixDaysOn(DayNumber(start));
  }

  // ---------------------------------------------------------------------------
  // spending in the period

  /** `t.type === 'expense' && t.category === name && t.date >= startStr &&
      t.date <= endStr`, the dates compared as strings. */
  function InPeriod(name: string, startStr: string, endStr: string): Transaction -> bool
  {
    (t: Transaction) => t.kind == Expense && t.category == name && LexLe(startStr, t.date) && LexLe(t.date, endStr)
  }

  function Spent(ts: seq<Transaction>, name: string, startStr: string, endStr: string): int
  {
    Total(Filter(ts, InPeriod(name, startStr, endStr)))
  }

  /** Comparing `YYYY-MM-DD` strings compares the dates. */
  lemma IsoDateLe(a: Date, b: Date)
    requires ValidDate(a) && 0 <= a.year <= 9999
    requires ValidDate(b) && 0 <= b.year <= 9999
    ensures LexLe(IsoDate(a), IsoDate(b)) <==> DayNumber(a) <= DayNumber(b)
  {
    IsoDateOrder(a, b);
    DayNumberOrder(a, b);
    ParsePrinted(a);
    ParsePrinted(b);
  }

  /** An expense of the category with a readable date is counted exactly
      when its day lies between the first and the last day of the period,
      both included. */
  lemma InPeriodExactly(name: string, start: Date, end: Date, t: Transaction)
    requires ValidDate(start) && 0 <= start.year <= 9999
    requires ValidDate(end) && 0 <= end.year <= 9999
    requires ParseYmd(t.date).Some?
    ensures var d := ParseYmd(t.date).value;
      InPeriod(name, IsoDate(start), IsoDate(end))(t) <==>
        t.kind == Expense && t.category == name && DayNumber(start) <= DayNumber(d) <= DayNumber(end)
  {
    var d := ParseYmd(t.date).value;
    PrintParsed(t.date);
    IsoDateLe(start, d);
    IsoDateLe(d, end);
  }

  // ---------------------------------------------------------------------------
  // one row per category

  datatype Row = Row(
    category: Category,
    budget: int,
    spent: int,
    remaining: int,
    percentage: real,
    isOverBudget: bool,
    isNearLimit: bool)

  /** `c.budget && c.budget > 0` */
  predicate HasPositiveBudget(c: Category)
  {
    c.budget.Some? && c.budget.value > 0
  }

  /** `Math.round(budget / 4)` for a week, the budget itself for a month. */
  function PeriodBudget(budget: int, budgetType: BudgetType): int
  {
    if budgetType == Weekly then Round(budget as real / 4.0) else budget
  }

  /** A week gets a quarter of a positive budget, to the nearest whole
      amount; only a budget of 1 rounds to nothing. */
  lemma WeeklyBudgetIsAQuarter(budget: int)
    requires budget > 0
    ensures var w := PeriodBudget(budget, Weekly);
      && 4 * w - 2 <= budget < 4 * w + 2
      && (w == 0 <==> budget == 1)
  {
    var w := PeriodBudget(budget, Weekly);
    assert w as real - 0.5 <= budget as real / 4.0 < w as real + 0.5;
  }

  /** `Math.min(spent / budget * 100, 100)`. A zero budget (a weekly budget
      of 1 rounded down) shows as full when anything was spent. */
  function Percentage(spent: int, budget: int): real
  {
    if budget == 0 then (if spent > 0 then 100.0 else 0.0)
    else
      var p := spent as real / budget as real * 100.0;
      if p < 100.0 then p else 100.0
  }

  function RowOf(ts: seq<Transaction>, startStr: string, endStr: string, budgetType: BudgetType, c: Category): Row
    requires HasPositiveBudget(c)
  {
    var budget := PeriodBudget(c.budget.value, budgetType);
    var spent := Spent(ts, c.name, startStr, endStr);
    var percentage := Percentage(spent, budget);
    var isOverBudget := spent > budget;
    Row(c, budget, spent, if budget - spent > 0 then budget - spent else 0,
      percentage, isOverBudget, percentage >= 80.0 && !isOverBudget)
  }

  /** The figures of a row agree with each other: the share never passes
      100, nothing negative is left, what is left and what was spent make
      up the budget while within it, and near the limit means between 80
      and 100 percent of a positive budget. */
  lemma RowConsistent(ts: seq<Transaction>, startStr: string, endStr: string, budgetType: BudgetType, c: Category)
    requires HasPositiveBudget(c)
    ensures var r := RowOf(ts, startStr, endStr, budgetType, c);
      && r.percentage <= 100.0
      && r.remaining >= 0
      && (r.isNearLimit ==> !r.isOverBudget)
      && (r.isOverBudget <==> r.spent > r.budget)
      && (r.remaining == 0 <==> r.spent >= r.budget)
      && (r.spent <= r.budget ==> r.remaining + r.spent == r.budget)
      && (r.budget > 0 ==> (r.isNearLimit <==> 80 * r.budget <= 100 * r.spent <= 100 * r.budget))
  {
    var r := RowOf(ts, startStr, endStr, budgetType, c);
    if r.budget > 0 {
      NearLimitBand(r.spent, r.budget);
    }
  }

  /** With a positive budget, at least 80 percent used and not over is the
      band from 80 to 100 percent of the budget. */
  lemma NearLimitBand(spent: int, budget: int)
    requires budget > 0
    ensures Percentage(spent, budget) >= 80.0 && !(spent > budget) <==> 80 * budget <= 100 * spent <= 100 * budget
  {
    var p := spent as real / budget as real * 100.0;
    AtLeastShare(spent as real * 100.0, budget as real, 100.0);
    AtLeastShare(spent as real * 100.0, budget as real, 80.0);
    assert p == (spent as real * 100.0) / budget as real;
  }

  function PercentageDesc(r: Row): real
  {
    -r.percentage
  }

  function RowsFor(ts: seq<Transaction>, startStr: string, endStr: string, budgetType: BudgetType, cs: seq<Category>): (r: seq<Row>)
    requires forall c :: c in cs ==> HasPositiveBudget(c)
    ensures |r| == |cs|
    ensures forall i :: 0 <= i < |cs| ==> r[i] == RowOf(ts, startStr, endStr, budgetType, cs[i])
  {
    seq(|cs|, i requires 0 <= i < |cs| => RowOf(ts, startStr, endStr, budgetType, cs[i]))
  }

  /** `budgetData`: a row for each category with a positive budget, the
      largest share first. */
  function BudgetData(ts: seq<Transaction>, categories: seq<Category>, startStr: string, endStr: string, budgetType: BudgetType): seq<Row>
  {
    SortBy(RowsFor(ts, startStr, endStr, budgetType, Filter(categories, HasPositiveBudget)), PercentageDesc)
  }

  /** One row for every category with a positive budget, each as the
      category's own figures, ordered by share used, largest first. */
  lemma BudgetDataOrdered(ts: seq<Transaction>, categories: seq<Category>, startStr: string, endStr: string, budgetType: BudgetType)
    ensures var r := BudgetData(ts, categories, startStr, endStr, budgetType);
      && |r| == |Filter(categories, HasPositiveBudget)|
      && (forall i, j :: 0 <= i < j < |r| ==> r[j].percentage <= r[i].percentage)
      && (forall x :: x in r ==>
            x.category in categories && HasPositiveBudget(x.category) && x == RowOf(ts, startStr, endStr, budgetType, x.category))
      && (forall c :: c in categories && HasPositiveBudget(c) ==> RowOf(ts, startStr, endStr, budgetType, c) in r)
  {
    var cs := Filter(categories, HasPositiveBudget);
    var rows := RowsFor(ts, startStr, endStr, budgetType, cs);
    var r := BudgetData(ts, categories, startStr, endStr, budgetType);
    forall i, j | 0 <= i < j < |r| ensures r[j].percentage <= r[i].percentage {
      assert PercentageDesc(r[i]) <= PercentageDesc(r[j]);
    }
    forall x | x in r
      ensures x.category in categories && HasPositiveBudget(x.category)
      ensures x == RowOf(ts, startStr, endStr, budgetType, x.category)
    {
      assert x in multiset(r);
      var k :| 0 <= k < |rows| && rows[k] == x;
      assert cs[k] in cs;
    }
    forall c | c in categories && HasPositiveBudget(c) ensures RowOf(ts, startStr, endStr, budgetType, c) in r {
      assert c in cs;
      var k :| 0 <= k < |cs| && cs[k] == c;
      assert rows[k] in multiset(rows);
    }
  }

  function IsOver(r: Row): bool
  {
    r.isOverBudget
  }

  function IsNear(r: Row): bool
  {
    r.isNearLimit
  }

  /** `overBudgetCount` and `nearLimitCount` */
  function Counts(rows: seq<Row>): (int, int)
  {
    (|Filter(rows, IsOver)|, |Filter(rows, IsNear)|)
  }

  /** No row is counted twice: the two counts together never exceed the
      number of rows. */
  lemma {:induction false} CountsDisjoint(rows: seq<Row>)
    requires forall r :: r in rows ==> (r.isNearLimit ==> !r.isOverBudget)
    ensures Counts(rows).0 + Counts(rows).1 <= |rows|
  {
    if rows != [] {
      CountsDisjoint(rows[1..]);
    }
  }

  /** The counts of the card's rows. */
  lemma CardCounts(ts: seq<Transaction>, categories: seq<Category>, startStr: string, endStr: string, budgetType: BudgetType)
    ensures var r := BudgetData(ts, categories, startStr, endStr, budgetType);
      Counts(r).0 + Counts(r).1 <= |r|
  {
    var r := BudgetData(ts, categories, startStr, endStr, budgetType);
    BudgetDataOrdered(ts, categories, startStr, endStr, budgetType);
    forall x | x in r ensures x.isNearLimit ==> !x.isOverBudget {
      RowConsistent(ts, startStr, endStr, budgetType, x.category);
    }
    CountsDisjoint(r);
  }

  // ---------------------------------------------------------------------------
  // colours

  datatype Tone = Destructive | Amber | Primary | Success

  /** `getStatusColor`: over budget first, then by share. */
  function StatusTone(percentage: real, isOver: bool): Tone
  {
    if isOver then Destructive
    else if percentage >= 80.0 then Amber
    else if percentage >= 50.0 then Primary
    else Success
  }

  /** In a row the amber bar is exactly the near-limit state. */
  lemma AmberIsNearLimit(ts: seq<Transaction>, startStr: string, endStr: string, budgetType: BudgetType, c: Category)
    requires HasPositiveBudget(c)
    ensures var r := RowOf(ts, startStr, endStr, budgetType, c);
      StatusTone(r.percentage, r.isOverBudget) == Amber <==> r.isNearLimit
  {
  }
}
