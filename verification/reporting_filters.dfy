/** The filter row of the reports page (`ReportingFilters`): category,
    subcategory, type and date range, the subcategory choices a category
    offers, and the count of active filters. */
module ReportingFilters {
  import opened Common
  import opened ExpenseTypes
  import opened AdvancedSearch

  /** `category` and `subcategory` are names or `"all"`; `kind` `None` is
      `"all"`; the dates `None` are `null`. */
  datatype ReportFilters = ReportFilters(
    category: string,
    subcategory: string,
    kind: Option<TxType>,
    startDate: Option<string>,
    endDate: Option<string>)

  /** The state on opening and after `clearAllFilters`. */
  const AllReports := ReportFilters("all", "all", None, None, None)

  predicate MatchesReport(f: ReportFilters, t: Transaction)
  {
    && (f.category == "all" || t.category == f.category)
    && (f.subcategory == "all" || t.subcategory == Some(f.subcategory))
    && (f.kind.None? || t.kind == f.kind.value)
    && MatchesDates(t.date, f.startDate, f.endDate)
  }

  /** `filteredTransactions`: the matching transactions in list order. */
  function ReportSelection(ts: seq<Transaction>, f: ReportFilters): (r: seq<Transaction>)
    ensures |r| <= |ts|
  {
    Filter(ts, (t: Transaction) => MatchesReport(f, t))
  }

  /** The selection keeps exactly the matching transactions, each as often
      as the list does. */
  lemma ReportSelectionExactly(ts: seq<Transaction>, f: ReportFilters)
    ensures forall t :: t in ReportSelection(ts, f) <==> t in ts && MatchesReport(f, t)
    ensures forall t :: MatchesReport(f, t) ==> multiset(ReportSelection(ts, f))[t] == multiset(ts)[t]
  {
    FilterMultiset(ts, (t: Transaction) => MatchesReport(f, t));
  }

  /** With every filter cleared the selection is the whole list. */
  lemma ClearedSelectsAll(ts: seq<Transaction>)
    ensures ReportSelection(ts, AllReports) == ts
  {
    FilterAll(ts, (t: Transaction) => MatchesReport(AllReports, t));
  }

  /** `handleCategoryChange(value)`: the category changes and the
      subcategory goes back to `"all"`. */
  function ChangeCategory(f: ReportFilters, value: string): (r: ReportFilters)
    ensures r.category == value && r.subcategory == "all"
    ensures r.kind == f.kind && r.startDate == f.startDate && r.endDate == f.endDate
  {
    f.(category := value, subcategory := "all")
  }

  /** After a category change every transaction of that category passes the
      category and subcategory filters. */
  lemma ChangeCategoryKeepsCategory(f: ReportFilters, value: string, t: Transaction)
    requires t.category == value
    ensures MatchesReport(ChangeCategory(f, value), t) <==>
      (f.kind.None? || t.kind == f.kind.value) && MatchesDates(t.date, f.startDate, f.endDate)
  {
  }

  function NameIs(name: string): Category -> bool
  {
    (c: Category) => c.name == name
  }

  /** `subcategories`, in the reports and in the add-transaction dialog: the
      subcategory names of the first category with the chosen name; none
      while nothing is chosen (`unchosen` is `"all"` in the reports and the
      empty text in the dialog), for an unknown name, or for a category
      without subcategories. */
  function SubcategoryOptions(categories: seq<Category>, category: string, unchosen: string): (r: seq<string>)
    ensures category == unchosen ==> r == []
    ensures FindIndex(categories, NameIs(category)) == -1 ==> r == []
    ensures category != unchosen && FindIndex(categories, NameIs(category)) >= 0 ==>
      var c := categories[FindIndex(categories, NameIs(category))];
      r == if c.subcategories.None? then [] else SubcategoryNames(c.subcategories.value)
  {
    if category == unchosen then []
    else
      var k := FindIndex(categories, NameIs(category));
      if k == -1 || categories[k].subcategories.None? then []
      else SubcategoryNames(categories[k].subcategories.value)
  }

  /** `activeFiltersCount`: how many of the five filters differ from their
      cleared value. */
  function ReportFiltersCount(f: ReportFilters): (n: nat)
    ensures n <= 5
    ensures n == 0 <==> f == AllReports
  {
    Flag(f.category != "all") + Flag(f.subcategory != "all") + Flag(f.kind.Some?)
    + Flag(f.startDate.Some?) + Flag(f.endDate.Some?)
  }
}
