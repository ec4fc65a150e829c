/** The dashboard's widget list (`useDashboardWidgets`): which widgets are
    shown and in what order, kept in `localStorage` under
    `dashboard-widgets` and written back after every change. */
module Widgets {
  import opened Common
  import opened ExpenseTypes
  import opened Storage

  const WidgetsKey := "dashboard-widgets"

  /** The sort key of `(a, b) => a.order - b.order`. */
  function OrderKey(w: Widget): real
  {
    w.order as real
  }

  /** The hook starts from `defaultWidgets` itself: the key is missing, its
      text is empty or it does not parse. */
  predicate UsesDefaults(store: map<string, Slot<Widget>>, parse: string -> Parsed<Widget>)
  {
    WidgetsKey !in store || store[WidgetsKey] == Raw("") || ParseSlot(store[WidgetsKey], parse).Malformed?
  }

  /** The initial list: the parsed stored list, or the current contents of
      `defaultWidgets` when the hook starts from it. `None` when the text
      parses to something that is not a list: the hook keeps that value and
      fails at its first spread. */
  function LoadWidgets(store: map<string, Slot<Widget>>, parse: string -> Parsed<Widget>, defaults: seq<Widget>): (r: Option<seq<Widget>>)
    ensures UsesDefaults(store, parse) ==> r == Some(defaults)
    ensures WidgetsKey in store && store[WidgetsKey].Written? ==> r == Some(store[WidgetsKey].items)
    ensures WidgetsKey in store && store[WidgetsKey].Raw? && store[WidgetsKey].text != "" ==>
      match parse(store[WidgetsKey].text)
      case Malformed => r == Some(defaults)
      case NotAnArray => r == None
      case ArrayOf(items) => r == Some(items)
  {
    if UsesDefaults(store, parse) then Some(defaults)
    else
      match ParseSlot(store[WidgetsKey], parse)
      case NotAnArray => None
      case ArrayOf(items) => Some(items)
  }

  /** `toggleWidget(id)`: every widget with that id changes its `enabled`
      flag; nothing else changes. */
  function Toggle(ws: seq<Widget>, id: string): (r: seq<Widget>)
    ensures |r| == |ws|
    ensures forall i :: 0 <= i < |ws| ==> r[i].(enabled := ws[i].enabled) == ws[i]
    ensures forall i :: 0 <= i < |ws| ==> (r[i].enabled != ws[i].enabled <==> ws[i].id == id)
  {
    seq(|ws|, i requires 0 <= i < |ws| => if ws[i].id == id then ws[i].(enabled := !ws[i].enabled) else ws[i])
  }

  /** Toggling the same widget twice gives back the list. */
  lemma ToggleTwice(ws: seq<Widget>, id: string)
    ensures Toggle(Toggle(ws, id), id) == ws
  {
    var r := Toggle(Toggle(ws, id), id);
    forall i | 0 <= i < |ws| ensures r[i] == ws[i] {
      ToggleAt(ws, id, i);
    }
  }

  lemma ToggleAt(ws: seq<Widget>, id: string, i: nat)
    requires i < |ws|
    ensures Toggle(Toggle(ws, id), id)[i] == ws[i]
  {
    var once := Toggle(ws, id);
    assert once[i].id == ws[i].id;
  }

  datatype Direction = Up | Down

  /** The list with the `order` values at positions `i` and `j` exchanged. */
  function SwapOrders(s: seq<Widget>, i: nat, j: nat): (r: seq<Widget>)
    requires i < |s| && j < |s| && i != j
    ensures |r| == |s|
  {
    s[i := s[i].(order := s[j].order)][j := s[j].(order := s[i].order)]
  }

  function IdIs(id: string): Widget -> bool
  {
    (w: Widget) => w.id == id
  }

  /** What `moveWidget(id, direction)` hands to the state: the list sorted by
      `order` with the widget's `order` exchanged with its neighbour's in
      that direction, when there is one. `None`: an unknown id moved down
      reads `sorted[-1].order` and throws. */
  function MoveResult(prev: seq<Widget>, id: string, dir: Direction): Option<seq<Widget>>
  {
    var sorted := SortBy(prev, OrderKey);
    MoveSorted(sorted, FindIndex(sorted, IdIs(id)), dir)
  }

  function MoveSorted(sorted: seq<Widget>, index: int, dir: Direction): Option<seq<Widget>>
    requires -1 <= index < |sorted|
  {
    if dir == Up && index > 0 then Some(SwapOrders(sorted, index, index - 1))
    else if dir == Down && index < |sorted| - 1 then
      if index < 0 then None else Some(SwapOrders(sorted, index, index + 1))
    else Some(sorted)
  }

  /** `moveWidget`'s state updater: sorts a copy of the list, then exchanges
      two `order` fields through a temporary. */
  method MoveWidget(prev: seq<Widget>, id: string, dir: Direction) returns (r: Option<seq<Widget>>)
    ensures r == MoveResult(prev, id, dir)
  {
    var s := SortBy(prev, OrderKey);
    r := MoveInSorted(s, id, dir);
  }

  /** The exchange on the sorted copy. */
  method MoveInSorted(s: seq<Widget>, id: string, dir: Direction) returns (r: Option<seq<Widget>>)
    ensures r == MoveSorted(s, FindIndex(s, IdIs(id)), dir)
  {
    var sorted := new Widget[|s|](i requires 0 <= i < |s| => s[i]);
    assert sorted[..] == s;
    var index := FindIndex(sorted[..], IdIs(id));
    if dir == Up && index > 0 {
      ExchangeOrders(sorted, index, index - 1);
    } else if dir == Down && index < sorted.Length - 1 {
      if index < 0 {
        return None;
      }
      ExchangeOrders(sorted, index, index + 1);
    }
    return Some(sorted[..]);
  }

  /** The exchange through `temp`, in place. */
  method ExchangeOrders(a: array<Widget>, i: nat, j: nat)
    requires i < a.Length && j < a.Length && i != j
    modifies a
    ensures a[..] == SwapOrders(old(a[..]), i, j)
  {
    var temp := a[i].order;
    a[i] := a[i].(order := a[j].order);
    a[j] := a[j].(order := temp);
  }

  /** Moving keeps the widgets and their `order` values: only which widget
      holds which value changes. */
  lemma MoveKeepsWidgets(prev: seq<Widget>, id: string, dir: Direction)
    requires MoveResult(prev, id, dir).Some?
    ensures var r := MoveResult(prev, id, dir).value;
      var sorted := SortBy(prev, OrderKey);
      && |r| == |prev|
      && (forall i :: 0 <= i < |r| ==> r[i].(order := sorted[i].order) == sorted[i])
      && multiset(Orders(r)) == multiset(Orders(prev))
  {
    var sorted := SortBy(prev, OrderKey);
    OrdersPermuted(prev, sorted);
    MoveSortedKeeps(sorted, FindIndex(sorted, IdIs(id)), dir);
  }

  lemma MoveSortedKeeps(sorted: seq<Widget>, index: int, dir: Direction)
    requires -1 <= index < |sorted| && MoveSorted(sorted, index, dir).Some?
    ensures var r := MoveSorted(sorted, index, dir).value;
      && |r| == |sorted|
      && (forall i :: 0 <= i < |r| ==> r[i].(order := sorted[i].order) == sorted[i])
      && multiset(Orders(r)) == multiset(Orders(sorted))
  {
    if dir == Up && index > 0 {
      SwapKeepsOrders(sorted, index, index - 1);
    } else if dir == Down && 0 <= index < |sorted| - 1 {
      SwapKeepsOrders(sorted, index, index + 1);
    }
  }

  /** The `order` values, position by position. */
  function Orders(ws: seq<Widget>): (r: seq<int>)
    ensures |r| == |ws| && forall i :: 0 <= i < |ws| ==> r[i] == ws[i].order
  {
    seq(|ws|, i requires 0 <= i < |ws| => ws[i].order)
  }

  lemma SwapKeepsOrders(s: seq<Widget>, i: nat, j: nat)
    requires i < |s| && j < |s| && i != j
    ensures multiset(Orders(SwapOrders(s, i, j))) == multiset(Orders(s))
    ensures forall k :: 0 <= k < |s| ==> SwapOrders(s, i, j)[k].(order := s[k].order) == s[k]
  {
    SwapOrdersValues(s, i, j);
    SwapMultiset(Orders(s), i, j);
  }

  lemma SwapOrdersValues(s: seq<Widget>, i: nat, j: nat)
    requires i < |s| && j < |s| && i != j
    ensures var o := Orders(s); Orders(SwapOrders(s, i, j)) == o[i := o[j]][j := o[i]]
  {
    var o := Orders(s);
    var r := Orders(SwapOrders(s, i, j));
    forall k | 0 <= k < |s| ensures r[k] == o[i := o[j]][j := o[i]][k] {
    }
  }

  lemma SwapMultiset<T>(o: seq<T>, i: nat, j: nat)
    requires i < |o| && j < |o| && i != j
    ensures multiset(o[i := o[j]][j := o[i]]) == multiset(o)
  {
    var p := o[i := o[j]];
    assert multiset(p) == multiset(o) - multiset{o[i]} + multiset{o[j]};
    assert p[j] == o[j];
    assert multiset(p[j := o[i]]) == multiset(p) - multiset{o[j]} + multiset{o[i]};
  }

  /** A permutation of the widgets is a permutation of their `order` values. */
  lemma {:induction false} OrdersPermuted(a: seq<Widget>, b: seq<Widget>)
    requires multiset(a) == multiset(b)
    ensures multiset(Orders(a)) == multiset(Orders(b))
    decreases |a|
  {
    if a != [] {
      var k := PermutedHead(a, b);
      OrdersPermuted(a[1..], b[..k] + b[k + 1..]);
      OrdersMatchHead(a, b, k);
    }
  }

  /** Where the first element of `a` sits in its permutation `b`; the rests
      are permutations of each other. */
  lemma PermutedHead<T>(a: seq<T>, b: seq<T>) returns (k: nat)
    requires a != [] && multiset(a) == multiset(b)
    ensures k < |b| && b[k] == a[0]
    ensures multiset(a[1..]) == multiset(b[..k] + b[k + 1..])
  {
    assert a[0] in multiset(b);
    k :| 0 <= k < |b| && b[k] == a[0];
    RemoveAt(b, k);
    RemoveHead(a);
    MultisetCancel(multiset(a[1..]), multiset(b[..k] + b[k + 1..]), a[0]);
  }

  lemma OrdersMatchHead(a: seq<Widget>, b: seq<Widget>, k: nat)
    requires a != [] && k < |b| && b[k] == a[0]
    requires multiset(Orders(a[1..])) == multiset(Orders(b[..k] + b[k + 1..]))
    ensures multiset(Orders(a)) == multiset(Orders(b))
  {
    OrdersRemoveAt(b, k);
    OrdersFirst(a);
  }

  lemma OrdersFirst(a: seq<Widget>)
    requires a != []
    ensures multiset(Orders(a)) == multiset(Orders(a[1..])) + multiset{a[0].order}
  {
    assert Orders(a) == [a[0].order] + Orders(a[1..]);
  }

  lemma MultisetCancel<T>(p: multiset<T>, q: multiset<T>, x: T)
    requires p + multiset{x} == q + multiset{x}
    ensures p == q
  {
    assert p == (p + multiset{x}) - multiset{x};
    assert q == (q + multiset{x}) - multiset{x};
  }

  lemma RemoveHead<T>(a: seq<T>)
    requires a != []
    ensures multiset(a) == multiset(a[1..]) + multiset{a[0]}
  {
    assert a == [a[0]] + a[1..];
  }

  lemma RemoveAt<T>(b: seq<T>, k: nat)
    requires k < |b|
    ensures multiset(b) == multiset(b[..k] + b[k + 1..]) + multiset{b[k]}
  {
    assert b == b[..k] + [b[k]] + b[k + 1..];
  }

  lemma OrdersConcat(a: seq<Widget>, b: seq<Widget>)
    ensures Orders(a + b) == Orders(a) + Orders(b)
  {
    var l, r := Orders(a + b), Orders(a) + Orders(b);
    forall k | 0 <= k < |l| ensures l[k] == r[k] {
      if k < |a| {
        assert (a + b)[k] == a[k];
      } else {
        assert (a + b)[k] == b[k - |a|];
      }
    }
  }

  lemma OrdersRemoveAt(b: seq<Widget>, k: nat)
    requires k < |b|
    ensures multiset(Orders(b)) == multiset(Orders(b[..k] + b[k + 1..])) + multiset{b[k].order}
  {
    var o := Orders(b);
    OrdersConcat(b[..k], b[k + 1..]);
    OrdersSlice(b, 0, k);
    OrdersSlice(b, k + 1, |b|);
    assert b[0..k] == b[..k] && b[k + 1..|b|] == b[k + 1..];
    assert o[0..k] == o[..k] && o[k + 1..|b|] == o[k + 1..];
    RemoveAt(o, k);
  }

  lemma OrdersSlice(b: seq<Widget>, i: nat, j: nat)
    requires i <= j <= |b|
    ensures Orders(b[i..j]) == Orders(b)[i..j]
  {
    var l, r := Orders(b[i..j]), Orders(b)[i..j];
    forall m | 0 <= m < |l| ensures l[m] == r[m] {
      assert b[i..j][m] == b[i + m];
    }
  }

  /** Moving the first widget up or the last widget down leaves the sorted
      list as it was. */
  lemma MoveAtEndsChangesNothing(prev: seq<Widget>, id: string, dir: Direction)
    requires var sorted := SortBy(prev, OrderKey);
      var index := FindIndex(sorted, IdIs(id));
      (dir == Up && index == 0) || (dir == Down && index == |sorted| - 1 && index >= 0)
    ensures MoveResult(prev, id, dir) == Some(SortBy(prev, OrderKey))
    ensures SortBy(MoveResult(prev, id, dir).value, OrderKey) == SortBy(prev, OrderKey)
  {
    SortBySorted(SortBy(prev, OrderKey), OrderKey);
  }

  /** Moving down an id that is not in a non-empty list throws; moving it up
      changes nothing. */
  lemma MoveUnknown(prev: seq<Widget>, id: string)
    requires prev != [] && forall i :: 0 <= i < |prev| ==> prev[i].id != id
    ensures MoveResult(prev, id, Down).None?
    ensures MoveResult(prev, id, Up) == Some(SortBy(prev, OrderKey))
  {
    var sorted := SortBy(prev, OrderKey);
    assert |sorted| == |multiset(sorted)| == |prev|;
    forall k | 0 <= k < |sorted| ensures !IdIs(id)(sorted[k]) {
      assert sorted[k] in multiset(sorted);
      assert sorted[k] in prev;
    }
    assert FindIndex(sorted, IdIs(id)) == -1;
    assert MoveSorted(sorted, -1, Down) == None;
    assert MoveSorted(sorted, -1, Up) == Some(sorted);
  }

  // ---------------------------------------------------------------------------
  // Widget objects and the shared `defaultWidgets` array

  /** A widget object of the page: its fields and its identity. Identities
      below the length of `defaultWidgets` are that array's own objects, by
      position; `JSON.parse` and a spread `{ ...w }` make objects with fresh
      identities. */
  datatype Cell = Cell(w: Widget, ref: nat)

  /** The objects' fields, position by position. */
  function Values(cs: seq<Cell>): (r: seq<Widget>)
    ensures |r| == |cs| && forall i :: 0 <= i < |cs| ==> r[i] == cs[i].w
  {
    seq(|cs|, i requires 0 <= i < |cs| => cs[i].w)
  }

  function RefOf(c: Cell): nat
  {
    c.ref
  }

  function Refs(cs: seq<Cell>): (r: seq<nat>)
    ensures |r| == |cs| && forall i :: 0 <= i < |cs| ==> r[i] == cs[i].ref
  {
    Map(cs, RefOf)
  }

  /** The array `defaultWidgets` itself: its objects, in its order. */
  function DefaultCells(defaults: seq<Widget>): (r: seq<Cell>)
    ensures Values(r) == defaults
    ensures |r| == |defaults| && forall i :: 0 <= i < |r| ==> r[i].ref == i
  {
    seq(|defaults|, i requires 0 <= i < |defaults| => Cell(defaults[i], i))
  }

  /** The objects `JSON.parse` makes for a stored list, identities from `next` on. */
  function FreshCells(ws: seq<Widget>, next: nat): (r: seq<Cell>)
    ensures Values(r) == ws
    ensures |r| == |ws| && forall i :: 0 <= i < |r| ==> r[i].ref == next + i
  {
    seq(|ws|, i requires 0 <= i < |ws| => Cell(ws[i], next + i))
  }

  function CellKey(c: Cell): real
  {
    c.w.order as real
  }

  function CellIdIs(id: string): Cell -> bool
  {
    (c: Cell) => c.w.id == id
  }

  /** `toggleWidget` on objects: a widget with the id is replaced by a fresh
      copy (`{ ...w, enabled: !w.enabled }`); every other object stays. */
  function ToggleCells(cs: seq<Cell>, id: string, next: nat): (r: seq<Cell>)
    ensures Values(r) == Toggle(Values(cs), id)
    ensures |r| == |cs|
    ensures forall i :: 0 <= i < |cs| ==> r[i].ref == (if cs[i].w.id == id then next + i else cs[i].ref)
  {
    seq(|cs|, i requires 0 <= i < |cs| =>
      if cs[i].w.id == id then Cell(cs[i].w.(enabled := !cs[i].w.enabled), next + i) else cs[i])
  }

  /** The exchange of two `order` fields written into the objects
      themselves: both keep their identity. */
  function SwapCellOrders(s: seq<Cell>, i: nat, j: nat): (r: seq<Cell>)
    requires i < |s| && j < |s| && i != j
    ensures Values(r) == SwapOrders(Values(s), i, j)
    ensures Refs(r) == Refs(s)
  {
    s[i := s[i].(w := s[i].w.(order := s[j].w.order))][j := s[j].(w := s[j].w.(order := s[i].w.order))]
  }

  /** `moveWidget`'s updater on objects: `[...prev]` copies the array, not
      the objects, so the sorted copy holds the same objects, and the
      exchange writes into two of them. */
  function MoveCells(prev: seq<Cell>, id: string, dir: Direction): (r: Option<seq<Cell>>)
    ensures r.Some? == MoveResult(Values(prev), id, dir).Some?
    ensures r.Some? ==> Values(r.value) == MoveResult(Values(prev), id, dir).value
    ensures r.Some? ==> multiset(Refs(r.value)) == multiset(Refs(prev))
  {
    var sorted := SortBy(prev, CellKey);
    SortValues(prev);
    FindIndexValues(sorted, id);
    MapPermuted(prev, sorted, RefOf);
    MoveSortedCells(sorted, FindIndex(sorted, CellIdIs(id)), dir)
  }

  /** The exchange on the sorted copy of the objects. */
  function MoveSortedCells(sorted: seq<Cell>, index: int, dir: Direction): (r: Option<seq<Cell>>)
    requires -1 <= index < |sorted|
    ensures r.Some? == MoveSorted(Values(sorted), index, dir).Some?
    ensures r.Some? ==> Values(r.value) == MoveSorted(Values(sorted), index, dir).value && Refs(r.value) == Refs(sorted)
  {
    if dir == Up && index > 0 then Some(SwapCellOrders(sorted, index, index - 1))
    else if dir == Down && index < |sorted| - 1 then
      if index < 0 then None else Some(SwapCellOrders(sorted, index, index + 1))
    else Some(sorted)
  }

  /** Sorting the objects by `order` sorts their fields the same way. */
  lemma {:induction false} SortValues(cs: seq<Cell>)
    ensures Values(SortBy(cs, CellKey)) == SortBy(Values(cs), OrderKey)
    decreases |cs|
  {
    if cs != [] {
      SortValues(cs[1..]);
      assert Values(cs)[1..] == Values(cs[1..]);
      InsertValues(cs[0], SortBy(cs[1..], CellKey));
    }
  }

  lemma {:induction false} InsertValues(c: Cell, s: seq<Cell>)
    requires SortedBy(s, CellKey)
    ensures SortedBy(Values(s), OrderKey)
    ensures Values(Insert(c, s, CellKey)) == Insert(c.w, Values(s), OrderKey)
    decreases |s|
  {
    var v := Values(s);
    assert forall i :: 0 <= i < |s| ==> OrderKey(v[i]) == CellKey(s[i]);
    if s == [] || CellKey(c) <= CellKey(s[0]) {
      assert Values([c] + s) == [c.w] + v;
    } else {
      SortedTail(s, CellKey);
      InsertValues(c, s[1..]);
      assert v[1..] == Values(s[1..]);
      var rest := Insert(c, s[1..], CellKey);
      assert Values([s[0]] + rest) == [s[0].w] + Values(rest);
    }
  }

  lemma FindIndexValues(s: seq<Cell>, id: string)
    ensures FindIndex(s, CellIdIs(id)) == FindIndex(Values(s), IdIs(id))
  {
    var a, b := FindIndex(s, CellIdIs(id)), FindIndex(Values(s), IdIs(id));
    assert forall k :: 0 <= k < |s| ==> CellIdIs(id)(s[k]) == IdIs(id)(Values(s)[k]);
  }

  /** A permutation of a list maps to a permutation of its images. */
  lemma {:induction false} MapPermuted<T, U>(a: seq<T>, b: seq<T>, f: T -> U)
    requires multiset(a) == multiset(b)
    ensures multiset(Map(a, f)) == multiset(Map(b, f))
    decreases |a|
  {
    if a != [] {
      var k := PermutedHead(a, b);
      var rest := b[..k] + b[k + 1..];
      MapPermuted(a[1..], rest, f);
      assert Map(a, f) == [f(a[0])] + Map(a[1..], f);
      assert Map(b, f) == Map(b[..k], f) + [f(b[k])] + Map(b[k + 1..], f);
      assert Map(rest, f) == Map(b[..k], f) + Map(b[k + 1..], f);
    }
  }

  /** A permutation of a list without repeats has none. */
  lemma DistinctPermuted<T>(a: seq<T>, b: seq<T>)
    requires NoDuplicates(a) && multiset(a) == multiset(b)
    ensures NoDuplicates(b)
  {
    forall i, j | 0 <= i < j < |b| ensures b[i] != b[j] {
      if b[i] == b[j] {
        var x := b[i];
        assert multiset(b)[x] >= 2 by {
          assert b == b[..i] + [x] + b[i + 1..j] + [x] + b[j + 1..];
          assert multiset(b) == multiset(b[..i]) + multiset{x} + multiset(b[i + 1..j]) + multiset{x} + multiset(b[j + 1..]);
        }
        NoDuplicatesCountOne(a, x);
        assert false;
      }
    }
  }

  /** Every object of `cs` has an identity below `next`, and those that are
      `defaultWidgets` objects hold what that array holds. */
  ghost predicate Shares(defaults: seq<Widget>, cs: seq<Cell>, next: nat)
  {
    forall c :: c in cs ==> c.ref < next && (c.ref < |defaults| ==> defaults[c.ref] == c.w)
  }

  /** The sorted copy holds the same objects. */
  lemma SortedShares(defaults: seq<Widget>, cs: seq<Cell>, next: nat)
    requires NoDuplicates(Refs(cs)) && Shares(defaults, cs, next)
    ensures var sorted := SortBy(cs, CellKey);
      && NoDuplicates(Refs(sorted)) && Shares(defaults, sorted, next)
      && multiset(Refs(sorted)) == multiset(Refs(cs))
  {
    var sorted := SortBy(cs, CellKey);
    MapPermuted(cs, sorted, RefOf);
    DistinctPermuted(Refs(cs), Refs(sorted));
    forall c | c in sorted ensures c in cs {
      assert c in multiset(sorted);
    }
  }

  /** The two writes of the exchange, seen through `defaultWidgets`: the
      shared objects of the new state hold what the array holds, and every
      array object outside the state keeps its fields. */
  lemma ExchangeWrites(defaults: seq<Widget>, sorted: seq<Cell>, i: nat, j: nat, next: nat)
    requires i < |sorted| && j < |sorted| && i != j
    requires NoDuplicates(Refs(sorted)) && Shares(defaults, sorted, next)
    ensures var moved := SwapCellOrders(sorted, i, j);
      var d := WriteThrough(WriteThrough(defaults, moved[i]), moved[j]);
      && Shares(d, moved, next)
      && |d| == |defaults|
      && forall k :: 0 <= k < |d| && k !in Refs(moved) ==> d[k] == defaults[k]
  {
    var moved := SwapCellOrders(sorted, i, j);
    var d := WriteThrough(WriteThrough(defaults, moved[i]), moved[j]);
    assert Refs(sorted)[i] != Refs(sorted)[j];
    forall c | c in moved ensures c.ref < next && (c.ref < |d| ==> d[c.ref] == c.w) {
      var p :| 0 <= p < |moved| && moved[p] == c;
      assert sorted[p] in sorted;
      if p != i && p != j {
        assert Refs(sorted)[p] != Refs(sorted)[i] && Refs(sorted)[p] != Refs(sorted)[j];
      }
    }
    forall k | 0 <= k < |d| && k !in Refs(moved) ensures d[k] == defaults[k] {
      assert Refs(moved)[i] == moved[i].ref && Refs(moved)[j] == moved[j].ref;
    }
  }

  /** `defaultWidgets` after `moveWidget`'s updater: the two exchanged
      `order` values written into their objects, which changes the array
      where they are its own. */
  function MoveDefaults(defaults: seq<Widget>, prev: seq<Cell>, id: string, dir: Direction): (r: seq<Widget>)
    ensures |r| == |defaults|
  {
    var sorted := SortBy(prev, CellKey);
    SortedDefaults(defaults, sorted, FindIndex(sorted, CellIdIs(id)), dir)
  }

  /** The writes of the exchange on the sorted copy, seen through
      `defaultWidgets`. */
  function SortedDefaults(defaults: seq<Widget>, sorted: seq<Cell>, index: int, dir: Direction): (r: seq<Widget>)
    requires -1 <= index < |sorted|
    ensures |r| == |defaults|
  {
    if dir == Up && index > 0 then
      var moved := SwapCellOrders(sorted, index, index - 1);
      WriteThrough(WriteThrough(defaults, moved[index]), moved[index - 1])
    else if dir == Down && 0 <= index < |sorted| - 1 then
      var moved := SwapCellOrders(sorted, index, index + 1);
      WriteThrough(WriteThrough(defaults, moved[index]), moved[index + 1])
    else defaults
  }

  /** An updater that throws has written into no object. */
  lemma FailedMoveWritesNothing(defaults: seq<Widget>, prev: seq<Cell>, id: string, dir: Direction)
    requires MoveCells(prev, id, dir).None?
    ensures MoveDefaults(defaults, prev, id, dir) == defaults
  {
    var sorted := SortBy(prev, CellKey);
    assert MoveCells(prev, id, dir) == MoveSortedCells(sorted, FindIndex(sorted, CellIdIs(id)), dir);
  }

  /** After a move the state's objects are still distinct, its shared ones
      hold what `defaultWidgets` holds, and every object of that array
      outside the state keeps its fields. */
  lemma MoveShares(defaults: seq<Widget>, prev: seq<Cell>, next: nat, id: string, dir: Direction)
    requires NoDuplicates(Refs(prev)) && Shares(defaults, prev, next)
    requires MoveCells(prev, id, dir).Some?
    ensures var moved := MoveCells(prev, id, dir).value;
      var d := MoveDefaults(defaults, prev, id, dir);
      && NoDuplicates(Refs(moved)) && Shares(d, moved, next)
      && forall k :: 0 <= k < |d| && k !in Refs(moved) ==> d[k] == defaults[k]
  {
    var sorted := SortBy(prev, CellKey);
    var index := FindIndex(sorted, CellIdIs(id));
    SortedShares(defaults, prev, next);
    assert MoveCells(prev, id, dir) == MoveSortedCells(sorted, index, dir);
    SortedMoveShares(defaults, sorted, next, index, dir);
  }

  /** The same on the sorted copy, for the position the lookup found. */
  lemma SortedMoveShares(defaults: seq<Widget>, sorted: seq<Cell>, next: nat, index: int, dir: Direction)
    requires -1 <= index < |sorted|
    requires NoDuplicates(Refs(sorted)) && Shares(defaults, sorted, next)
    requires MoveSortedCells(sorted, index, dir).Some?
    ensures var moved := MoveSortedCells(sorted, index, dir).value;
      var d := SortedDefaults(defaults, sorted, index, dir);
      && NoDuplicates(Refs(moved)) && Shares(d, moved, next)
      && forall k :: 0 <= k < |d| && k !in Refs(moved) ==> d[k] == defaults[k]
  {
    if dir == Up && index > 0 {
      ExchangeWrites(defaults, sorted, index, index - 1, next);
    } else if dir == Down && 0 <= index < |sorted| - 1 {
      ExchangeWrites(defaults, sorted, index, index + 1, next);
    }
  }

  /** The dashboard state behind `useDashboardWidgets`. */
  class WidgetBoard {
    /** The objects of the state array, in its order. */
    var cells: seq<Cell>
    var store: map<string, Slot<Widget>>
    /** The fields of the module-level `defaultWidgets` objects, in that
        array's order. They outlive the hook, and a write into one of them
        while the state holds it changes them. */
    var defaults: seq<Widget>
    /** Identities handed out so far. */
    var next: nat

    /** The state's objects are distinct, their identities handed out, and
        those of them that are `defaultWidgets` objects hold what that array
        holds. */
    ghost predicate Valid()
      reads this
    {
      && |defaults| <= next
      && NoDuplicates(Refs(cells))
      && Shares(defaults, cells, next)
    }

    /** The state's widgets. */
    function Widgets(): seq<Widget>
      reads this
    {
      Values(cells)
    }

    /** The list is what `localStorage` holds under the key. */
    predicate Persisted()
      reads this
    {
      WidgetsKey in store && store[WidgetsKey] == Written(Widgets())
    }

    /** Mounting the hook, with `shared` the current contents of
        `defaultWidgets`: the initial list, written back at once. Starting
        from the defaults, the state is that array itself. */
    constructor (store0: map<string, Slot<Widget>>, parse: string -> Parsed<Widget>, shared: seq<Widget>)
      requires LoadWidgets(store0, parse, shared).Some?
      ensures Valid()
      ensures Widgets() == LoadWidgets(store0, parse, shared).value && defaults == shared
      ensures UsesDefaults(store0, parse) ==> cells == DefaultCells(shared)
      ensures !UsesDefaults(store0, parse) ==> forall c :: c in cells ==> c.ref >= |shared|
      ensures store == store0[WidgetsKey := Written(Widgets())]
      ensures Persisted()
    {
      var cs: seq<Cell>;
      var n: nat;
      if UsesDefaults(store0, parse) {
        cs, n := DefaultCells(shared), |shared|;
      } else {
        var items := LoadWidgets(store0, parse, shared).value;
        cs, n := FreshCells(items, |shared|), |shared| + |items|;
      }
      cells, defaults, next := cs, shared, n;
      store := store0[WidgetsKey := Written(Values(cs))];
    }

    /** The `widgets` the hook exposes: its list, ascending by `order`. */
    function Shown(): (r: seq<Widget>)
      reads this
      ensures SortedBy(r, OrderKey) && multiset(r) == multiset(Widgets())
    {
      SortBy(Widgets(), OrderKey)
    }

    method ToggleWidget(id: string)
      requires Valid()
      modifies this
      ensures Valid()
      ensures cells == ToggleCells(old(cells), id, old(next))
      ensures Widgets() == Toggle(old(Widgets()), id)
      ensures defaults == old(defaults)
      ensures store == old(store)[WidgetsKey := Written(Widgets())] && Persisted()
    {
      var old_ := cells;
      cells := ToggleCells(cells, id, next);
      forall i, j | 0 <= i < j < |cells| ensures cells[i].ref != cells[j].ref {
        assert old_[i] in old_ && old_[j] in old_;
        assert Refs(old_)[i] != Refs(old_)[j];
      }
      forall c | c in cells ensures c.ref < next + |cells| && (c.ref < |defaults| ==> defaults[c.ref] == c.w) {
        var i :| 0 <= i < |cells| && cells[i] == c;
        assert old_[i] in old_;
      }
      next := next + |cells|;
      store := store[WidgetsKey := Written(Values(cells))];
    }

    /** `moveWidget`: the sorted copy becomes the state, and the two
        exchanged `order` values are written into the objects themselves,
        `defaultWidgets` objects included. An unknown id moved down makes the
        updater throw before it writes anything; React then reports the error
        while rendering, and the model keeps the state as it was. */
    method Move(id: string, dir: Direction)
      requires Valid()
      modifies this
      ensures Valid()
      ensures MoveCells(old(cells), id, dir).Some? ==>
        && cells == MoveCells(old(cells), id, dir).value
        && Widgets() == MoveResult(old(Widgets()), id, dir).value
        && store == old(store)[WidgetsKey := Written(Widgets())]
      ensures MoveCells(old(cells), id, dir).None? ==> cells == old(cells) && store == old(store)
      ensures multiset(Refs(cells)) == multiset(Refs(old(cells))) && next == old(next)
      ensures defaults == MoveDefaults(old(defaults), old(cells), id, dir)
      ensures forall k :: 0 <= k < |defaults| && k !in Refs(cells) ==> defaults[k] == old(defaults)[k]
    {
      var r := MoveCells(cells, id, dir);
      if r.None? {
        FailedMoveWritesNothing(defaults, cells, id, dir);
        return;
      }
      MoveShares(defaults, cells, next, id, dir);
      Commit(MoveDefaults(defaults, cells, id, dir), r.value);
    }

    /** `setWidgets` with an array whose objects the updater may have
        written into: the state takes the array, `defaultWidgets` holds what
        the writes left in it, and the effect stores the list. */
    method Commit(d: seq<Widget>, cs: seq<Cell>)
      requires |d| <= next && NoDuplicates(Refs(cs)) && Shares(d, cs, next)
      modifies this
      ensures Valid()
      ensures cells == cs && defaults == d && next == old(next)
      ensures store == old(store)[WidgetsKey := Written(Widgets())] && Persisted()
    {
      defaults, cells := d, cs;
      store := store[WidgetsKey := Written(Values(cs))];
    }

    /** `resetWidgets`: the state becomes the array `defaultWidgets` itself,
        holding whatever earlier moves wrote into its objects. */
    method ResetWidgets()
      requires Valid()
      modifies this
      ensures Valid()
      ensures cells == DefaultCells(defaults) && Widgets() == defaults
      ensures defaults == old(defaults) && next == old(next)
      ensures store == old(store)[WidgetsKey := Written(defaults)] && Persisted()
    {
      cells := DefaultCells(defaults);
      forall i, j | 0 <= i < j < |cells| ensures Refs(cells)[i] != Refs(cells)[j] {
      }
      store := store[WidgetsKey := Written(defaults)];
    }
  }

  /** A write of an object's fields, seen through `defaultWidgets`: it
      changes the array's entry when the object is one of its own. */
  function WriteThrough(defaults: seq<Widget>, c: Cell): (r: seq<Widget>)
    ensures |r| == |defaults|
    ensures forall k :: 0 <= k < |r| ==> r[k] == (if k == c.ref then c.w else defaults[k])
  {
    if c.ref < |defaults| then defaults[c.ref := c.w] else defaults
  }

  /** Before any move has written into them, a reset shows the default
      widgets in their own order. */
  lemma ResetShowsDefaults()
    ensures SortBy(DefaultWidgets, OrderKey) == DefaultWidgets
  {
    DefaultWidgetsWellFormed();
    assert SortedBy(DefaultWidgets, OrderKey);
    SortBySorted(DefaultWidgets, OrderKey);
  }

  /** An element whose key is not above the head of a sorted list goes in front. */
  lemma InsertFront<T>(x: T, s: seq<T>, key: T -> real)
    requires SortedBy(s, key) && (s == [] || key(x) <= key(s[0]))
    ensures Insert(x, s, key) == [x] + s
  {
  }

  /** An element whose key is above the head of a sorted list goes behind it. */
  lemma InsertPast<T>(x: T, s: seq<T>, key: T -> real)
    requires SortedBy(s, key) && s != [] && key(s[0]) < key(x)
    ensures SortedBy(s[1..], key) && Insert(x, s, key) == [s[0]] + Insert(x, s[1..], key)
  {
    SortedTail(s, key);
  }

  /** A list whose tail is sorted and whose first element belongs between
      the second and the third sorts with its first two exchanged. */
  lemma SortSecondFirst<T>(s: seq<T>, key: T -> real)
    requires |s| >= 2 && SortedBy(s[1..], key) && key(s[1]) < key(s[0])
    requires |s| > 2 ==> key(s[0]) <= key(s[2])
    ensures SortBy(s, key) == [s[1], s[0]] + s[2..]
  {
    var tail := s[1..];
    SortByHead(s, key);
    SortBySorted(tail, key);
    InsertPast(s[0], tail, key);
    var rest := s[2..];
    assert tail[0] == s[1] && tail[1..] == rest;
    InsertFront(s[0], rest, key);
    assert Insert(s[0], tail, key) == [s[1]] + ([s[0]] + rest);
    PairFront(s[1], s[0], rest);
  }

  lemma PairFront<T>(a: T, b: T, rest: seq<T>)
    ensures [a] + ([b] + rest) == [a, b] + rest
  {
  }

  /** Sorting a non-empty list inserts its head into its sorted tail. */
  lemma SortByHead<T>(s: seq<T>, key: T -> real)
    requires s != []
    ensures SortBy(s, key) == Insert(s[0], SortBy(s[1..], key), key)
  {
  }

  /** Moving the first object of an array in strictly ascending `order`
      down exchanges the `order` of its first two objects. */
  lemma MoveFirstDown(d: seq<Widget>)
    requires |d| >= 2 && forall i, j :: 0 <= i < j < |d| ==> d[i].order < d[j].order
    ensures MoveCells(DefaultCells(d), d[0].id, Down) == Some(SwapCellOrders(DefaultCells(d), 0, 1))
  {
    var start := DefaultCells(d);
    assert SortedBy(start, CellKey);
    SortBySorted(start, CellKey);
    assert FindIndex(start, CellIdIs(d[0].id)) == 0;
  }

  /** After the first two objects exchanged their `order`, the array sorts
      with them exchanged. */
  lemma SwappedFirstShown(d: seq<Widget>)
    requires |d| >= 2 && forall i, j :: 0 <= i < j < |d| ==> d[i].order < d[j].order
    ensures SortBy(SwapOrders(d, 0, 1), OrderKey)
      == [d[1].(order := d[0].order), d[0].(order := d[1].order)] + d[2..]
  {
    var s := SwapOrders(d, 0, 1);
    assert s == [d[0].(order := d[1].order), d[1].(order := d[0].order)] + d[2..];
    assert SortedBy(s[1..], OrderKey);
    SortSecondFirst(s, OrderKey);
  }

  /** When the state holds each `defaultWidgets` object at its own position,
      the array holds exactly the state's fields. */
  lemma SharedInPlace(defaults: seq<Widget>, cs: seq<Cell>, next: nat)
    requires Shares(defaults, cs, next) && |cs| == |defaults|
    requires forall i :: 0 <= i < |cs| ==> cs[i].ref == i
    ensures defaults == Values(cs)
  {
    forall k | 0 <= k < |cs| ensures defaults[k] == cs[k].w {
      assert cs[k] in cs;
    }
  }

  /** Reset, move the first default widget down, reset again: the move wrote
      into the array's own objects, so the second reset shows the first two
      widgets exchanged rather than the array's original order. */
  method ResetMoveFirstReset(b: WidgetBoard) returns (shown: seq<Widget>)
    requires b.Valid() && |b.defaults| >= 2
    requires forall i, j :: 0 <= i < j < |b.defaults| ==> b.defaults[i].order < b.defaults[j].order
    modifies b
    ensures b.defaults == SwapOrders(old(b.defaults), 0, 1) && b.Widgets() == b.defaults
    ensures shown == b.Shown()
    ensures var d := old(b.defaults);
      shown == [d[1].(order := d[0].order), d[0].(order := d[1].order)] + d[2..]
  {
    var d := b.defaults;
    b.ResetWidgets();
    MoveFirstDefaultDown(b);
    b.ResetWidgets();
    SwappedFirstShown(d);
    shown := b.Shown();
  }

  /** Moving the first widget down while the state is the array
      `defaultWidgets` itself writes the exchanged `order` values into the
      array's first two objects. */
  method MoveFirstDefaultDown(b: WidgetBoard)
    requires b.Valid() && |b.defaults| >= 2 && b.cells == DefaultCells(b.defaults)
    requires forall i, j :: 0 <= i < j < |b.defaults| ==> b.defaults[i].order < b.defaults[j].order
    modifies b
    ensures b.Valid() && b.defaults == SwapOrders(old(b.defaults), 0, 1)
  {
    var d := b.defaults;
    MoveFirstDown(d);
    b.Move(d[0].id, Down);
    SharedInPlace(b.defaults, SwapCellOrders(DefaultCells(d), 0, 1), b.next);
  }

  /** At page load `defaultWidgets` is as declared. Resetting, moving
      `balance` down and resetting again does not restore that order: the
      second reset shows `spending-chart` first. */
  method ResetMoveReset(b: WidgetBoard) returns (shown: seq<Widget>)
    requires b.Valid() && b.defaults == DefaultWidgets
    modifies b
    ensures shown == b.Shown()
    ensures shown == [DefaultWidgets[1].(order := 0), DefaultWidgets[0].(order := 1)] + DefaultWidgets[2..]
    ensures shown[0].id == "spending-chart" && shown[1].id == "balance"
  {
    DefaultWidgetsAscending();
    shown := ResetMoveFirstReset(b);
  }

  /** `defaultWidgets` as declared: strictly ascending `order`, starting
      with `balance` at 0 and `spending-chart` at 1. */
  lemma DefaultWidgetsAscending()
    ensures |DefaultWidgets| >= 2
    ensures forall i, j :: 0 <= i < j < |DefaultWidgets| ==> DefaultWidgets[i].order < DefaultWidgets[j].order
    ensures DefaultWidgets[0].order == 0 && DefaultWidgets[1].order == 1
    ensures DefaultWidgets[0].id == "balance" && DefaultWidgets[1].id == "spending-chart"
  {
    DefaultWidgetsWellFormed();
  }

  /** What a change writes is what the next mount reads, as fresh objects. */
  lemma ReloadAfterWrite(store: map<string, Slot<Widget>>, ws: seq<Widget>, parse: string -> Parsed<Widget>, defaults: seq<Widget>)
    ensures LoadWidgets(store[WidgetsKey := Written(ws)], parse, defaults) == Some(ws)
    ensures !UsesDefaults(store[WidgetsKey := Written(ws)], parse)
  {
  }
}
