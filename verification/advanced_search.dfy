/** The search sheet over the transaction list (`AdvancedSearch`): ten
    filter fields, the predicate they define, the sort order, and the count
    of active filters shown on the filter button. */
module AdvancedSearch {
  import opened Common
  import opened Text
  import opened Calendar
  import opened ExpenseTypes
  import opened Amounts

  datatype SortOption = DateDesc | DateAsc | AmountDesc | AmountAsc

  /** The sheet's state. `category` is a category name or `"all"`; `kind`
      `None` is `"all"`; `startDate`/`endDate` `None` is `null`; the two
      amount bounds hold the formatted text typed into them. */
  datatype Filters = Filters(
    query: string,
    category: string,
    kind: Option<TxType>,
    startDate: Option<string>,
    endDate: Option<string>,
    tags: seq<string>,
    sort: SortOption,
    minAmount: string,
    maxAmount: string,
    onlyRecurring: bool)

  /** The state on opening and after `clearAllFilters`. */
  const Cleared := Filters("", "all", None, None, None, [], DateDesc, "", "", false)

  /** `!searchQuery || …`: the query occurs, ignoring case, in the
      description, the category, the subcategory or one of the tags. */
  predicate MatchesSearch(t: Transaction, query: string)
  {
    || query == ""
    || ContainsIgnoringCase(t.description, query)
    || ContainsIgnoringCase(t.category, query)
    || (t.subcategory.Some? && t.subcategory.value != "" && ContainsIgnoringCase(t.subcategory.value, query))
    || (exists tag :: tag in t.tags && ContainsIgnoringCase(tag, query))
  }

  /** A bound that is set (not `null` and not empty) compares as text. */
  predicate Given(bound: Option<string>)
  {
    bound.Some? && bound.value != ""
  }

  predicate MatchesDates(date: string, startDate: Option<string>, endDate: Option<string>)
  {
    (Given(startDate) ==> LexLe(startDate.value, date)) && (Given(endDate) ==> LexLe(date, endDate.value))
  }

  /** A number bound: a value, `Infinity`, or `NaN` (which no comparison
      accepts). */
  datatype Limit = Finite(n: int) | Infinite | NotANumber

  /** `minAmount ? parseInt(minAmount.replace(/,/g, '')) : 0` */
  function MinLimit(text: string): Limit
  {
    if text == "" then Finite(0)
    else match ParseInt(StripCommas(text))
      case Some(n) => Finite(n)
      case None => NotANumber
  }

  /** `maxAmount ? parseInt(maxAmount.replace(/,/g, '')) : Infinity` */
  function MaxLimit(text: string): Limit
  {
    if text == "" then Infinite
    else match ParseInt(StripCommas(text))
      case Some(n) => Finite(n)
      case None => NotANumber
  }

  predicate AtLeast(amount: int, l: Limit)
  {
    l.Finite? && amount >= l.n
  }

  predicate AtMost(amount: int, l: Limit)
  {
    l.Infinite? || (l.Finite? && amount <= l.n)
  }

  /** The filter predicate: every criterion holds. */
  predicate Matches(f: Filters, t: Transaction)
  {
    && MatchesSearch(t, f.query)
    && (f.category == "all" || t.category == f.category)
    && (f.kind.None? || t.kind == f.kind.value)
    && MatchesDates(t.date, f.startDate, f.endDate)
    && (f.tags == [] || exists tag :: tag in f.tags && tag in t.tags)
    && AtLeast(t.amount, MinLimit(f.minAmount))
    && AtMost(t.amount, MaxLimit(f.maxAmount))
    && (!f.onlyRecurring || t.isRecurring)
  }

  /** `new Date(date).getTime()` in days. */
  function DateKey(date: string): real
  {
    match ParseYmd(date)
    case Some(d) => DayNumber(d) as real
    case None => 0.0
  }

  /** The comparator of the sort option, as an ascending key. */
  function SortKey(option: SortOption): Transaction -> real
  {
    match option
    case DateDesc => (t: Transaction) => -DateKey(t.date)
    case DateAsc => (t: Transaction) => DateKey(t.date)
    case AmountDesc => (t: Transaction) => -(t.amount as real)
    case AmountAsc => (t: Transaction) => t.amount as real
  }

  /** `filteredTransactions`: the matching transactions in the chosen order. */
  function Search(ts: seq<Transaction>, f: Filters): (r: seq<Transaction>)
    ensures SortedBy(r, SortKey(f.sort))
    ensures multiset(r) == multiset(Filter(ts, (t: Transaction) => Matches(f, t)))
  {
    SortBy(Filter(ts, (t: Transaction) => Matches(f, t)), SortKey(f.sort))
  }

  /** The result holds exactly the matching transactions of the list, each
      as often as the list does. */
  lemma SearchExactly(ts: seq<Transaction>, f: Filters)
    ensures forall t :: t in Search(ts, f) <==> t in ts && Matches(f, t)
    ensures forall t :: Matches(f, t) ==> multiset(Search(ts, f))[t] == multiset(ts)[t]
  {
    var kept := Filter(ts, (t: Transaction) => Matches(f, t));
    FilterMultiset(ts, (t: Transaction) => Matches(f, t));
    forall t ensures t in Search(ts, f) <==> t in kept {
      assert t in Search(ts, f) <==> t in multiset(Search(ts, f));
      assert t in kept <==> t in multiset(kept);
    }
  }

  /** In date order the result is ordered by its `YYYY-MM-DD` dates as
      text, descending or ascending. */
  lemma DateOrder(ts: seq<Transaction>, f: Filters, i: int, j: int)
    requires f.sort == DateDesc || f.sort == DateAsc
    requires 0 <= i < j < |Search(ts, f)|
    requires ParseYmd(Search(ts, f)[i].date).Some? && ParseYmd(Search(ts, f)[j].date).Some?
    ensures var a, b := Search(ts, f)[i].date, Search(ts, f)[j].date;
      if f.sort == DateAsc then LexLe(a, b) else LexLe(b, a)
  {
    var r := Search(ts, f);
    var a, b := r[i].date, r[j].date;
    var da, db := ParseYmd(a).value, ParseYmd(b).value;
    assert SortKey(f.sort)(r[i]) <= SortKey(f.sort)(r[j]);
    PrintParsed(a);
    PrintParsed(b);
    IsoDateOrder(da, db);
    IsoDateOrder(db, da);
    DayNumberOrder(da, db);
  }

  /** With every filter cleared, a transaction is kept exactly when its
      amount is not negative (the minimum then reads as 0). */
  lemma ClearedKeepsNonNegative(t: Transaction, query: string, sort: SortOption)
    ensures Matches(Cleared.(query := query, sort := sort), t) <==> MatchesSearch(t, query) && t.amount >= 0
  {
  }

  function Flag(b: bool): nat
  {
    if b then 1 else 0
  }

  /** `activeFiltersCount`: how many of the eight filters (not the query and
      not the sort) differ from their cleared value. */
  function ActiveFiltersCount(f: Filters): (n: nat)
    ensures n <= 8
    ensures n == 0 <==>
      && f.category == "all" && f.kind.None? && f.startDate.None? && f.endDate.None?
      && f.tags == [] && f.minAmount == "" && f.maxAmount == "" && !f.onlyRecurring
  {
    Flag(f.category != "all") + Flag(f.kind.Some?) + Flag(f.startDate.Some?) + Flag(f.endDate.Some?)
    + Flag(f.tags != []) + Flag(f.minAmount != "") + Flag(f.maxAmount != "") + Flag(f.onlyRecurring)
  }

  /** After `clearAllFilters` no filter is active; with no active filter the
      search keeps what the query finds among the non-negative amounts. */
  lemma NoActiveFilters(f: Filters, t: Transaction)
    ensures ActiveFiltersCount(Cleared) == 0
    ensures ActiveFiltersCount(f) == 0 ==> (Matches(f, t) <==> MatchesSearch(t, f.query) && t.amount >= 0)
  {
  }

  /** `allTags`: every tag used by some transaction, once, in order of first
      use. */
  function AllTags(ts: seq<Transaction>): (r: seq<string>)
    ensures NoDuplicates(r)
    ensures forall tag :: tag in r <==> exists t :: t in ts && tag in t.tags
  {
    var all := TagsOf(ts);
    TagsOfSpec(ts);
    Distinct(all)
  }

  function TagsOf(ts: seq<Transaction>): seq<string>
  {
    if ts == [] then [] else ts[0].tags + TagsOf(ts[1..])
  }

  lemma {:induction false} TagsOfSpec(ts: seq<Transaction>)
    ensures forall tag :: tag in TagsOf(ts) <==> exists t :: t in ts && tag in t.tags
  {
    if ts != [] {
      TagsOfSpec(ts[1..]);
      assert forall t :: t in ts <==> t == ts[0] || t in ts[1..];
    }
  }
}
