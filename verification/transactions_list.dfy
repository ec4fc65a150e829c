/** The transaction list page (`TransactionsList`): the search and filter
    predicate, the grouping of the kept transactions by date, and the order
    of the date headings. */
module TransactionsList {
  import opened Common
  import opened Text
  import opened ExpenseTypes
  import opened AdvancedSearch

  /** `category` is a name or `"all"`; `kind` `None` is `"all"`. */
  datatype ListFilters = ListFilters(
    query: string,
    category: string,
    kind: Option<TxType>,
    startDate: Option<string>,
    endDate: Option<string>)

  /** The search box has no empty-query shortcut: the empty query occurs in
      every description. */
  predicate MatchesListSearch(t: Transaction, query: string)
  {
    || ContainsIgnoringCase(t.description, query)
    || ContainsIgnoringCase(t.category, query)
    || (t.subcategory.Some? && t.subcategory.value != "" && ContainsIgnoringCase(t.subcategory.value, query))
  }

  predicate MatchesList(f: ListFilters, t: Transaction)
  {
    && MatchesListSearch(t, f.query)
    && (f.category == "all" || t.category == f.category)
    && (f.kind.None? || t.kind == f.kind.value)
    && MatchesDates(t.date, f.startDate, f.endDate)
  }

  /** An empty query matches every transaction. */
  lemma EmptyQueryMatchesAll(t: Transaction)
    ensures MatchesListSearch(t, "")
  {
    ContainsSelf(ToLower(t.description));
  }

  /** `filteredTransactions`, in list order. */
  function Shown(ts: seq<Transaction>, f: ListFilters): (r: seq<Transaction>)
    ensures forall t :: t in r <==> t in ts && MatchesList(f, t)
  {
    Filter(ts, (t: Transaction) => MatchesList(f, t))
  }

  /** `clearDateFilter`: both dates back to `null`; with no other filter
      and an empty query everything is shown. */
  lemma ClearedListShowsAll(ts: seq<Transaction>)
    ensures Shown(ts, ListFilters("", "all", None, None, None)) == ts
  {
    forall t | t in ts ensures MatchesList(ListFilters("", "all", None, None, None), t) {
      EmptyQueryMatchesAll(t);
    }
    FilterAll(ts, (t: Transaction) => MatchesList(ListFilters("", "all", None, None, None), t));
  }

  function DateIs(date: string): Transaction -> bool
  {
    (t: Transaction) => t.date == date
  }

  function Dates(s: seq<Transaction>): (r: seq<string>)
    ensures |r| == |s| && forall i :: 0 <= i < |s| ==> r[i] == s[i].date
  {
    seq(|s|, i requires 0 <= i < |s| => s[i].date)
  }

  /** The group of a date: the transactions on that date, in list order. */
  function Group(s: seq<Transaction>, date: string): seq<Transaction>
  {
    Filter(s, DateIs(date))
  }

  /** The dates in order of first appearance: the keys of the `groups`
      object. */
  function GroupKeys(s: seq<Transaction>): (r: seq<string>)
    ensures NoDuplicates(r)
    ensures forall d :: d in r <==> exists t :: t in s && t.date == d
  {
    var ds := Dates(s);
    assert forall d :: d in ds <==> exists t :: t in s && t.date == d by {
      forall d | d in ds ensures exists t :: t in s && t.date == d {
        var i :| 0 <= i < |ds| && ds[i] == d;
        assert s[i] in s;
      }
      forall d | exists t :: t in s && t.date == d ensures d in ds {
        var t :| t in s && t.date == d;
        var i :| 0 <= i < |s| && s[i] == t;
        assert ds[i] == d;
      }
    }
    Distinct(ds)
  }

  /** The `reduce` that pushes each transaction into the array of its date. */
  method GroupByDate(s: seq<Transaction>) returns (keys: seq<string>, groups: map<string, seq<Transaction>>)
    ensures keys == GroupKeys(s)
    ensures groups.Keys == set d | d in keys
    ensures forall d :: d in groups ==> groups[d] == Group(s, d)
  {
    keys := [];
    groups := map[];
    for i := 0 to |s|
      invariant keys == Distinct(Dates(s[..i]))
      invariant groups == GroupMap(s[..i])
    {
      var date := s[i].date;
      PrefixStep(s, i);
      GroupMapKeys(s[..i]);
      ghost var before := groups;
      if date !in groups {
        groups := groups[date := []];
        keys := keys + [date];
      }
      ghost var bucket := if date in before then before[date] else [];
      assert groups[date] == bucket;
      groups := groups[date := groups[date] + [s[i]]];
      assert groups == before[date := bucket + [s[i]]];
    }
    assert s[..|s|] == s;
    GroupMapMeaning(s);
  }

  /** The object holds exactly the dates that occur, each with its group. */
  lemma GroupMapMeaning(s: seq<Transaction>)
    ensures GroupMap(s).Keys == set d | d in GroupKeys(s)
    ensures forall d :: d in GroupMap(s) ==> GroupMap(s)[d] == Group(s, d)
  {
    GroupMapKeys(s);
    GroupMapGroups(s);
  }

  /** The object the `reduce` builds: each transaction pushed onto the array
      of its date, a missing array created first. */
  function GroupMap(s: seq<Transaction>): map<string, seq<Transaction>>
    decreases |s|
  {
    if s == [] then map[]
    else
      var g, x := GroupMap(s[..|s| - 1]), s[|s| - 1];
      g[x.date := (if x.date in g then g[x.date] else []) + [x]]
  }

  /** One more transaction: the keys gain its date when it is new. */
  lemma DatesSnoc(p: seq<Transaction>, x: Transaction)
    ensures (p + [x])[..|p|] == p && (p + [x])[|p|] == x
    ensures Distinct(Dates(p + [x])) ==
      var keys := Distinct(Dates(p));
      if x.date in keys then keys else keys + [x.date]
  {
    assert Dates(p + [x]) == Dates(p) + [x.date];
    assert Dates(p + [x])[..|p|] == Dates(p);
  }

  /** The keys and the object after one more transaction of `s`. */
  lemma PrefixStep(s: seq<Transaction>, i: int)
    requires 0 <= i < |s|
    ensures var keys, x := Distinct(Dates(s[..i])), s[i];
      Distinct(Dates(s[..i + 1])) == (if x.date in keys then keys else keys + [x.date])
    ensures var g, x := GroupMap(s[..i]), s[i];
      GroupMap(s[..i + 1]) == g[x.date := (if x.date in g then g[x.date] else []) + [x]]
  {
    assert s[..i + 1] == s[..i] + [s[i]];
    DatesSnoc(s[..i], s[i]);
  }

  /** The object's keys are the dates that occur. */
  lemma {:induction false} GroupMapKeys(s: seq<Transaction>)
    ensures forall d :: d in GroupMap(s) <==> d in Distinct(Dates(s))
    decreases |s|
  {
    if s != [] {
      var p, x := s[..|s| - 1], s[|s| - 1];
      assert s == p + [x];
      GroupMapKeys(p);
      DatesSnoc(p, x);
      assert GroupMap(s).Keys == GroupMap(p).Keys + {x.date};
    }
  }

  /** Each array of the object is the group of its date. */
  lemma {:induction false} GroupMapGroups(s: seq<Transaction>)
    ensures forall d :: d in GroupMap(s) ==> GroupMap(s)[d] == Group(s, d)
    decreases |s|
  {
    if s != [] {
      var p, x := s[..|s| - 1], s[|s| - 1];
      GroupMapGroups(p);
      GroupMapKeys(p);
      assert s == p + [x];
      forall d ensures Group(s, d) == Group(p, d) + (if d == x.date then [x] else []) {
        FilterConcat(p, [x], DateIs(d));
      }
      if x.date !in GroupMap(p) {
        GroupEmpty(p, x.date);
      }
    }
  }

  /** A date that no transaction carries has an empty group. */
  lemma GroupEmpty(s: seq<Transaction>, date: string)
    requires date !in Distinct(Dates(s))
    ensures Group(s, date) == []
  {
    forall i | 0 <= i < |s| ensures !DateIs(date)(s[i]) {
      assert Dates(s)[i] in Dates(s);
    }
    FilterNone(s, DateIs(date));
  }

  function GroupSize(s: seq<Transaction>): string -> int
  {
    (d: string) => |Group(s, d)|
  }

  /** The groups partition the list: their sizes add up to its length. */
  lemma {:induction false} GroupSizesSum(s: seq<Transaction>)
    ensures SumOf(GroupKeys(s), GroupSize(s)) == |s|
    decreases |s|
  {
    if s != [] {
      var p, x := s[..|s| - 1], s[|s| - 1];
      var date := x.date;
      assert s == p + [x];
      GroupSizesSum(p);
      var kp := Distinct(Dates(p));
      assert Dates(s) == Dates(p) + [date];
      assert Dates(s)[..|s| - 1] == Dates(p);
      forall d ensures GroupSize(s)(d) == GroupSize(p)(d) + (if d == date then 1 else 0) {
        FilterConcat(p, [x], DateIs(d));
      }
      SumOfBump(kp, GroupSize(p), GroupSize(s), date);
      if date !in kp {
        SumOfConcat(kp, [date], GroupSize(s));
        GroupEmpty(p, date);
      }
    }
  }

  /** Every transaction is in the group of its own date, and a group holds
      only transactions of its date. */
  lemma GroupsPartition(s: seq<Transaction>)
    ensures forall t :: t in s ==> t.date in GroupKeys(s) && t in Group(s, t.date)
    ensures forall d, t :: t in Group(s, d) ==> t in s && t.date == d
  {
  }

  /** `sortedDates`: the keys, latest date first. */
  function SortedDates(keys: seq<string>): (r: seq<string>)
    ensures multiset(r) == multiset(keys)
    ensures forall i, j :: 0 <= i < j < |r| ==> DateKey(r[j]) <= DateKey(r[i])
  {
    var r := SortBy(keys, (d: string) => -DateKey(d));
    assert forall i, j :: 0 <= i < j < |r| ==> -DateKey(r[i]) <= -DateKey(r[j]);
    r
  }
}
