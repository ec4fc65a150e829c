/** The spending pie chart (`SubcategoryChart`): the expenses grouped by
    subcategory within a selected category, or by category when none is
    selected, each slice with its total, its share of the whole and its
    colour, largest first. Shares are exact numbers. */
module SubcategoryChart {
  import opened Common
  import opened Text
  import opened ExpenseTypes

  /** `COLORS`: the palette slices take in turn. */
  const Palette: seq<string> := [
      "hsl(168, 76%, 42%)",
      "hsl(199, 89%, 48%)",
      "hsl(38, 92%, 50%)",
      "hsl(262, 83%, 58%)",
      "hsl(0, 72%, 51%)",
      "hsl(142, 71%, 45%)",
      "hsl(330, 80%, 60%)",
      "hsl(25, 95%, 53%)"
  ]

  /** The label of a transaction without a subcategory ("other"). */
  const OtherLabel := "سایر"

  /** `COLORS[index % COLORS.length]` */
  function PaletteColor(index: nat): (r: string)
    ensures r in Palette
  {
    Palette[index % |Palette|]
  }

  /** A slice of the chart. The share is a percentage; `None` stands for the
      value that is not a finite number (a division by a zero total). */
  datatype Slice = Slice(name: string, value: int, percentage: Option<real>, color: string)

  function SliceName(s: Slice): string
  {
    s.name
  }

  /** `Object.values(totals).reduce((sum, val) => sum + val, 0)` */
  function EntriesTotal(acc: seq<(string, int)>): int
  {
    SumOf(acc, EntryValue)
  }

  // ---------------------------------------------------------------------------
  // totals per subcategory

  /** `t.subcategory || 'سایر'` */
  function SubLabel(t: Transaction): string
  {
    if t.subcategory.Some? && t.subcategory.value != "" then t.subcategory.value else OtherLabel
  }

  function SubAmount(t: Transaction): (string, int)
  {
    (SubLabel(t), t.amount)
  }

  function HasLabel(name: string): Transaction -> bool
  {
    (t: Transaction) => SubLabel(t) == name
  }

  /** `subcategoryTotals`, keys in first-occurrence order. */
  function SubcategoryTotals(ts: seq<Transaction>): seq<(string, int)>
  {
    Totals(Map(ts, SubAmount))
  }

  lemma {:induction false} SumForLabels(ts: seq<Transaction>, name: string)
    ensures SumFor(Map(ts, SubAmount), name) == Total(Filter(ts, HasLabel(name)))
  {
    if ts != [] {
      SumForLabels(ts[1..], name);
      assert Map(ts, SubAmount)[1..] == Map(ts[1..], SubAmount);
      SumOfConcat(if SubLabel(ts[0]) == name then [ts[0]] else [], Filter(ts[1..], HasLabel(name)), AmountOf);
      if SubLabel(ts[0]) == name {
        assert ([ts[0]] + Filter(ts[1..], HasLabel(name)))[1..] == Filter(ts[1..], HasLabel(name));
      }
    }
  }

  /** Each label's total is the sum of the amounts of the transactions
      carrying it; a label nobody carries has none. */
  lemma SubcategoryTotalIsSum(ts: seq<Transaction>, name: string)
    ensures Lookup(SubcategoryTotals(ts), name) == Total(Filter(ts, HasLabel(name)))
  {
    TotalsLookup(Map(ts, SubAmount), name);
    SumForLabels(ts, name);
  }

  /** The `forEach` that fills `subcategoryTotals`. */
  method SumBySubcategory(ts: seq<Transaction>) returns (acc: seq<(string, int)>)
    ensures acc == SubcategoryTotals(ts)
  {
    acc := [];
    for i := 0 to |ts|
      invariant acc == SubcategoryTotals(ts[..i])
    {
      var pairs := Map(ts[..i + 1], SubAmount);
      assert pairs[..i] == Map(ts[..i], SubAmount);
      acc := AddTo(acc, SubLabel(ts[i]), ts[i].amount);
    }
    assert ts[..|ts|] == ts;
  }

  /** The entries of a per-key total add up to all the amounts. */
  lemma {:induction false} PairsTotal(ts: seq<Transaction>, f: Transaction -> (string, int))
    requires forall t :: f(t).1 == t.amount
    ensures SumOf(Map(ts, f), EntryValue) == Total(ts)
  {
    if ts != [] {
      assert Map(ts, f)[1..] == Map(ts[1..], f);
      PairsTotal(ts[1..], f);
    }
  }

  // ---------------------------------------------------------------------------
  // slices

  /** `(value / total) * 100`, not a finite number when the total is 0. */
  function RawShare(value: int, total: int): Option<real>
  {
    if total != 0 then Some(value as real / total as real * 100.0) else None
  }

  /** `total > 0 ? (value / total) * 100 : 0` */
  function GuardedShare(value: int, total: int): real
  {
    if total > 0 then value as real / total as real * 100.0 else 0.0
  }

  /** A share times the total gives back a hundred times the value. */
  lemma SharesRecover(value: int, total: int)
    ensures RawShare(value, total).None? <==> total == 0
    ensures total != 0 ==> RawShare(value, total).value * total as real == value as real * 100.0
    ensures total > 0 ==> GuardedShare(value, total) * total as real == value as real * 100.0
    ensures total <= 0 ==> GuardedShare(value, total) == 0.0
  {
  }

  /** The subcategory slices before sorting: palette colours by position. */
  function SubcategorySlices(acc: seq<(string, int)>): seq<Slice>
  {
    var total := EntriesTotal(acc);
    seq(|acc|, i requires 0 <= i < |acc| => Slice(acc[i].0, acc[i].1, RawShare(acc[i].1, total), PaletteColor(i)))
  }

  /** `defaultExpenseCategories.find(c => c.name === name)?.color`, empty
      when no built-in category has that name. */
  function SeedColor(seeds: seq<CategorySeed>, name: string): string
  {
    if seeds == [] then ""
    else if seeds[0].name == name then seeds[0].color
    else SeedColor(seeds[1..], name)
  }

  /** `catConfig?.color || COLORS[index % COLORS.length]`, the built-in
      categories being `seeds`. */
  function CategoryColor(seeds: seq<CategorySeed>, name: string, index: nat): string
  {
    var c := SeedColor(seeds, name);
    if c != "" then c else PaletteColor(index)
  }

  /** The category slices before sorting: the built-in colour of the
      category if it has one, the palette otherwise. */
  function CategorySlices(acc: seq<(string, int)>, seeds: seq<CategorySeed>): seq<Slice>
  {
    var total := EntriesTotal(acc);
    seq(|acc|, i requires 0 <= i < |acc| => Slice(acc[i].0, acc[i].1, Some(GuardedShare(acc[i].1, total)), CategoryColor(seeds, acc[i].0, i)))
  }

  function ValueOrder(s: Slice): real
  {
    -(s.value as real)
  }

  /** `.sort((a, b) => b.value - a.value)`: largest value first, equal
      values in their order. */
  function ByValue(slices: seq<Slice>): (r: seq<Slice>)
    ensures multiset(r) == multiset(slices)
    ensures |r| == |slices|
    ensures forall i, j :: 0 <= i < j < |r| ==> r[j].value <= r[i].value
  {
    var r := SortBy(slices, ValueOrder);
    assert |multiset(r)| == |multiset(slices)|;
    assert forall i, j :: 0 <= i < j < |r| ==> ValueOrder(r[i]) <= ValueOrder(r[j]);
    r
  }

  /** Each sorted slice is one of the unsorted ones. */
  lemma SortedFrom(slices: seq<Slice>, i: int)
    requires 0 <= i < |ByValue(slices)|
    ensures exists k :: 0 <= k < |slices| && slices[k] == ByValue(slices)[i]
  {
    assert ByValue(slices)[i] in multiset(slices);
  }

  // ---------------------------------------------------------------------------
  // the chart

  /** `if (selectedCategory)`: a category is selected when given and not empty. */
  predicate Selected(selected: Option<string>)
  {
    selected.Some? && selected.value != ""
  }

  /** The expenses the chart is drawn from. */
  function ChartExpenses(ts: seq<Transaction>, selected: Option<string>): seq<Transaction>
  {
    var expenses := Filter(ts, OfKind(Expense));
    if Selected(selected) then Filter(expenses, InCategory(selected.value)) else expenses
  }

  /** The chart of one category's expenses: by subcategory, all of them. */
  function SubcategoryPie(filtered: seq<Transaction>): seq<Slice>
  {
    ByValue(SubcategorySlices(SubcategoryTotals(filtered)))
  }

  /** The chart of all expenses: by category, the eight largest. */
  function CategoryPie(filtered: seq<Transaction>, seeds: seq<CategorySeed>): seq<Slice>
  {
    Prefix(ByValue(CategorySlices(CategoryTotals(filtered), seeds)), 8)
  }

  /** Only expenses are counted, and with a category selected only that
      category's, in their order. */
  lemma ChartExpensesExactly(ts: seq<Transaction>, selected: Option<string>)
    ensures var filtered := ChartExpenses(ts, selected);
      forall t :: t in filtered <==>
           t in ts && t.kind == Expense && (Selected(selected) ==> t.category == selected.value)
  {
  }

  /** The chart for the transactions and the selected category. */
  function ChartOf(ts: seq<Transaction>, selected: Option<string>): seq<Slice>
  {
    var filtered := ChartExpenses(ts, selected);
    if Selected(selected) then SubcategoryPie(filtered) else CategoryPie(filtered, DefaultExpenseCategories)
  }

  /** The `useMemo` computing the chart: `filtered` narrowed step by step,
      the totals accumulated, then mapped, sorted and cut. */
  method ChartData(ts: seq<Transaction>, selected: Option<string>) returns (data: seq<Slice>)
    ensures data == ChartOf(ts, selected)
  {
    var filtered := Filter(ts, OfKind(Expense));
    if Selected(selected) {
      filtered := Filter(filtered, InCategory(selected.value));
      var acc := SumBySubcategory(filtered);
      data := ByValue(SubcategorySlices(acc));
    } else {
      var acc := SumByCategory(filtered);
      data := Prefix(ByValue(CategorySlices(acc, DefaultExpenseCategories)), 8);
    }
  }

  /** With a category selected: one slice per subcategory label of its
      expenses (a missing subcategory counted under "other"), each the sum
      of that label's expenses, largest first, palette colours, and each
      share the value's percentage of the category's whole spending, which
      is not a finite number when that spending adds up to 0. */
  lemma SubcategoryMode(filtered: seq<Transaction>)
    ensures var r := SubcategoryPie(filtered);
      && |r| == |Distinct(Map(filtered, SubLabel))|
      && (r == [] <==> filtered == [])
      && (forall i, j :: 0 <= i < j < |r| ==> r[j].value <= r[i].value)
      && (forall i :: 0 <= i < |r| ==>
            && r[i].value == Total(Filter(filtered, HasLabel(r[i].name)))
            && r[i].name in Map(filtered, SubLabel)
            && r[i].color in Palette
            && r[i].percentage == RawShare(r[i].value, Total(filtered)))
  {
    var acc := SubcategoryTotals(filtered);
    var slices := SubcategorySlices(acc);
    var r := SubcategoryPie(filtered);
    assert r == ByValue(slices);
    var pairs := Map(filtered, SubAmount);
    assert Keys(pairs) == Map(filtered, SubLabel);
    assert Keys(acc) == Distinct(Map(filtered, SubLabel));
    TotalsPreserveSum(pairs);
    PairsTotal(filtered, SubAmount);
    if filtered != [] {
      assert Map(filtered, SubLabel)[0] in Keys(acc);
    }
    forall i | 0 <= i < |r|
      ensures r[i].value == Total(Filter(filtered, HasLabel(r[i].name)))
      ensures r[i].name in Map(filtered, SubLabel)
      ensures r[i].color in Palette
      ensures r[i].percentage == RawShare(r[i].value, Total(filtered))
    {
      SortedFrom(slices, i);
      var k :| 0 <= k < |slices| && slices[k] == r[i];
      LookupEntry(acc, k);
      SubcategoryTotalIsSum(filtered, acc[k].0);
      assert Keys(acc)[k] == acc[k].0;
    }
  }

  /** Every category slice, before the cut, is its category's sum with its
      share of the whole. */
  lemma CategorySlicesAreTotals(seeds: seq<CategorySeed>, filtered: seq<Transaction>, i: int)
    requires 0 <= i < |ByValue(CategorySlices(CategoryTotals(filtered), seeds))|
    ensures var s := ByValue(CategorySlices(CategoryTotals(filtered), seeds))[i];
      && s.value == Total(Filter(filtered, InCategory(s.name)))
      && s.percentage == Some(GuardedShare(s.value, Total(filtered)))
  {
    var acc := CategoryTotals(filtered);
    var slices := CategorySlices(acc, seeds);
    var pairs := Map(filtered, CategoryAmount);
    TotalsPreserveSum(pairs);
    PairsTotal(filtered, CategoryAmount);
    SortedFrom(slices, i);
    var k :| 0 <= k < |slices| && slices[k] == ByValue(slices)[i];
    CategoryTotalsEntry(filtered, k);
  }

  /** Sorting keeps every name. */
  lemma SortKeepsName(slices: seq<Slice>, k: int)
    requires 0 <= k < |slices|
    ensures exists p :: 0 <= p < |ByValue(slices)| && ByValue(slices)[p].name == slices[k].name
  {
    var sorted := ByValue(slices);
    assert slices[k] in multiset(sorted);
    var p :| 0 <= p < |sorted| && sorted[p] == slices[k];
  }

  /** A category with expenses has a slice somewhere in the sorted list. */
  lemma CategoryHasSlice(seeds: seq<CategorySeed>, filtered: seq<Transaction>, t: Transaction)
    requires t in filtered
    ensures var sorted := ByValue(CategorySlices(CategoryTotals(filtered), seeds));
      exists p :: 0 <= p < |sorted| && sorted[p].name == t.category
  {
    var acc := CategoryTotals(filtered);
    CategoryHasEntry(filtered, t);
    var k :| 0 <= k < |acc| && acc[k].0 == t.category;
    var slices := CategorySlices(acc, seeds);
    assert slices[k].name == t.category;
    SortKeepsName(slices, k);
  }

  /** Without a selected category: at most eight slices, largest first,
      and none exactly when there are no expenses. */
  lemma CategoryPieShape(seeds: seq<CategorySeed>, filtered: seq<Transaction>)
    ensures var r := CategoryPie(filtered, seeds);
      && |r| <= 8
      && (r == [] <==> filtered == [])
      && (forall i, j :: 0 <= i < j < |r| ==> r[j].value <= r[i].value)
  {
    var sorted := ByValue(CategorySlices(CategoryTotals(filtered), seeds));
    SlicesEmpty(seeds, filtered);
    TopEightOrdered(sorted);
  }

  /** There are slices exactly when there are expenses. */
  lemma SlicesEmpty(seeds: seq<CategorySeed>, filtered: seq<Transaction>)
    ensures ByValue(CategorySlices(CategoryTotals(filtered), seeds)) == [] <==> filtered == []
  {
    if filtered != [] {
      CategoryHasSlice(seeds, filtered, filtered[0]);
    } else {
      assert |CategoryTotals(filtered)| == 0;
    }
  }

  /** `.slice(0, 8)` of a list sorted largest first: at most eight, still
      largest first, empty only when the list is. */
  lemma TopEightOrdered(sorted: seq<Slice>)
    requires forall i, j :: 0 <= i < j < |sorted| ==> sorted[j].value <= sorted[i].value
    ensures var r := Prefix(sorted, 8);
      && |r| <= 8
      && (r == [] <==> sorted == [])
      && (forall i, j :: 0 <= i < j < |r| ==> r[j].value <= r[i].value)
  {
    var r := Prefix(sorted, 8);
    forall i, j | 0 <= i < j < |r| ensures r[j].value <= r[i].value {
      assert r[i] == sorted[i] && r[j] == sorted[j];
    }
  }

  /** Each slice shown is the sum of its category's expenses, and its
      share that sum's percentage of all spending, or 0 when that spending
      is not positive. */
  lemma CategoryPieValues(seeds: seq<CategorySeed>, filtered: seq<Transaction>)
    ensures var r := CategoryPie(filtered, seeds);
      forall i :: 0 <= i < |r| ==>
        && r[i].value == Total(Filter(filtered, InCategory(r[i].name)))
        && r[i].percentage == Some(GuardedShare(r[i].value, Total(filtered)))
  {
    var r := CategoryPie(filtered, seeds);
    forall i | 0 <= i < |r|
      ensures r[i].value == Total(Filter(filtered, InCategory(r[i].name)))
      ensures r[i].percentage == Some(GuardedShare(r[i].value, Total(filtered)))
    {
      CategorySlicesAreTotals(seeds, filtered, i);
    }
  }

  /** A slice cut off a list sorted largest first is no larger than the
      last one kept. */
  lemma CutKeepsLargest(sorted: seq<Slice>, n: nat, p: int)
    requires forall i, j :: 0 <= i < j < |sorted| ==> sorted[j].value <= sorted[i].value
    requires n > 0 && 0 <= p < |sorted| && sorted[p].name !in Map(Prefix(sorted, n), SliceName)
    ensures |Prefix(sorted, n)| == n && sorted[p].value <= Prefix(sorted, n)[n - 1].value
  {
    var r := Prefix(sorted, n);
    assert forall q :: 0 <= q < |r| ==> Map(r, SliceName)[q] != sorted[p].name;
    assert p >= |r|;
  }

  /** A category cut from the chart spent no more than the eighth slice. */
  lemma CategoryLeftOut(seeds: seq<CategorySeed>, filtered: seq<Transaction>, t: Transaction)
    requires t in filtered && t.category !in Map(CategoryPie(filtered, seeds), SliceName)
    ensures var r := CategoryPie(filtered, seeds);
      |r| == 8 && Total(Filter(filtered, InCategory(t.category))) <= r[7].value
  {
    var sorted := ByValue(CategorySlices(CategoryTotals(filtered), seeds));
    CategoryHasSlice(seeds, filtered, t);
    var p :| 0 <= p < |sorted| && sorted[p].name == t.category;
    CutKeepsLargest(sorted, 8, p);
    CategorySlicesAreTotals(seeds, filtered, p);
  }
}
