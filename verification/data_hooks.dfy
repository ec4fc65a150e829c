/** The transaction and category stores (`useTransactions`,
    `useCategories`): how a backend row becomes a record, and the list each
    hook keeps once a backend call has succeeded. The backend is assumed to
    succeed and to read back the row it was given, with the id it chose. */
module DataHooks {
  import opened Common
  import opened ExpenseTypes

  /** A `transactions` row as the backend returns it; `None` is `null`. */
  datatype TxRow = TxRow(
    id: string,
    amount: int,
    kind: TxType,
    category: string,
    subcategory: Option<string>,
    description: Option<string>,
    date: string,
    isRecurring: Option<bool>,
    tags: Option<seq<string>>)

  /** The row mapping of the fetch and of `addTransaction`: missing
      subcategory, description, flag and tags read as none, empty, `false`
      and no tags; the reminder fields are not read. */
  function TransactionOf(row: TxRow): (t: Transaction)
    ensures t.id == row.id && t.amount == row.amount && t.kind == row.kind
    ensures t.category == row.category && t.date == row.date
    ensures t.subcategory == OrMissing(row.subcategory)
    ensures t.description == GetOr(row.description, "")
    ensures t.isRecurring <==> row.isRecurring == Some(true)
    ensures t.tags == GetOr(row.tags, [])
    ensures t.reminderDays.None? && t.nextDueDate.None?
  {
    Transaction(row.id, row.amount, row.kind, row.category, OrMissing(row.subcategory),
                GetOr(row.description, ""), row.date, GetOr(row.isRecurring, false), None, None,
                GetOr(row.tags, []))
  }

  /** The row `addTransaction` inserts: an empty subcategory is sent as
      `null`. */
  function RowOf(d: Draft, id: string): TxRow
  {
    TxRow(id, d.amount, d.kind, d.category, OrMissing(d.subcategory), Some(d.description), d.date,
          Some(d.isRecurring), Some(d.tags))
  }

  /** Adding a draft and reading it back gives the draft with the new id; only
      an empty subcategory is lost. */
  lemma DraftRoundTrip(d: Draft, id: string)
    ensures var t := TransactionOf(RowOf(d, id));
      && t.id == id && t.amount == d.amount && t.kind == d.kind && t.category == d.category
      && t.description == d.description && t.date == d.date && t.isRecurring == d.isRecurring
      && t.tags == d.tags
      && t.subcategory == (if d.subcategory == Some("") then None else d.subcategory)
  {
  }

  function TxHasId(id: string): Transaction -> bool
  {
    (t: Transaction) => t.id == id
  }

  /** `updateTransaction(t)` on the list: the record with the same id is
      replaced by `t` as given. */
  function ReplaceTransaction(ts: seq<Transaction>, t: Transaction): seq<Transaction>
  {
    MapWhere(ts, TxHasId(t.id), (_: Transaction) => t)
  }

  function RemoveTransaction(ts: seq<Transaction>, id: string): seq<Transaction>
  {
    Filter(ts, (t: Transaction) => t.id != id)
  }

  /** Replacing puts `t` at every position of its id and nowhere else. */
  lemma ReplaceTransactionExactly(ts: seq<Transaction>, t: Transaction)
    ensures var r := ReplaceTransaction(ts, t);
      && |r| == |ts|
      && (forall i :: 0 <= i < |ts| ==> r[i] == if ts[i].id == t.id then t else ts[i])
  {
  }

  /** Replacing a record that is not in the list changes nothing; replacing
      twice is replacing once. */
  lemma ReplaceTransactionLaws(ts: seq<Transaction>, t: Transaction)
    ensures (forall i :: 0 <= i < |ts| ==> ts[i].id != t.id) ==> ReplaceTransaction(ts, t) == ts
    ensures ReplaceTransaction(ReplaceTransaction(ts, t), t) == ReplaceTransaction(ts, t)
  {
    if forall i :: 0 <= i < |ts| ==> ts[i].id != t.id {
      MapWhereNone(ts, TxHasId(t.id), (_: Transaction) => t);
    }
  }

  /** Deleting removes exactly the records with the id and keeps every other
      record, as often as it occurred. */
  lemma RemoveTransactionExactly(ts: seq<Transaction>, id: string)
    ensures var r := RemoveTransaction(ts, id);
      && (forall t: Transaction :: t in r ==> t.id != id)
      && (forall t: Transaction :: t.id != id ==> multiset(r)[t] == multiset(ts)[t])
  {
    FilterMultiset(ts, (t: Transaction) => t.id != id);
  }

  /** The transactions of the signed-in user as the hook holds them. */
  class TransactionStore {
    var user: Option<string>
    var transactions: seq<Transaction>

    /** The fetch: the rows, newest date first as the backend orders them,
        mapped to records; no user means no transactions. */
    constructor (user: Option<string>, rows: seq<TxRow>)
      ensures this.user == user
      ensures user.None? ==> transactions == []
      ensures user.Some? ==>
        |transactions| == |rows| && forall i :: 0 <= i < |rows| ==> transactions[i] == TransactionOf(rows[i])
    {
      this.user := user;
      transactions := if user.None? then [] else seq(|rows|, i requires 0 <= i < |rows| => TransactionOf(rows[i]));
    }

    /** `addTransaction`: the stored record goes in front. */
    method AddTransaction(d: Draft, id: string)
      modifies this
      ensures user == old(user)
      ensures transactions ==
        if user.None? then old(transactions) else [TransactionOf(RowOf(d, id))] + old(transactions)
    {
      if user.None? {
        return;
      }
      transactions := [TransactionOf(RowOf(d, id))] + transactions;
    }

    method UpdateTransaction(t: Transaction)
      modifies this
      ensures user == old(user)
      ensures transactions == if user.None? then old(transactions) else ReplaceTransaction(old(transactions), t)
    {
      if user.None? {
        return;
      }
      transactions := ReplaceTransaction(transactions, t);
    }

    method DeleteTransaction(id: string)
      modifies this
      ensures user == old(user)
      ensures transactions == if user.None? then old(transactions) else RemoveTransaction(old(transactions), id)
    {
      if user.None? {
        return;
      }
      transactions := RemoveTransaction(transactions, id);
    }
  }

  /** A `categories` row as the backend returns it. */
  datatype CategoryRow = CategoryRow(
    id: string,
    name: string,
    icon: string,
    color: string,
    budget: Option<int>,
    subcategories: Option<seq<string>>)

  /** The row mapping of the fetch: a category with a budget (a present,
      non-zero one) is an expense category, any other an income category;
      nothing is spent yet. */
  function CategoryOf(row: CategoryRow): (c: Category)
    ensures c.id == row.id && c.name == row.name && c.icon == row.icon && c.color == row.color
    ensures c.budget == (if Truthy(row.budget) then row.budget else None)
    ensures c.spent == Some(0)
    ensures c.kind == Some(if Truthy(row.budget) then Expense else Income)
    ensures c.subcategories == Some(Names(GetOr(row.subcategories, [])))
  {
    Category(row.id, row.name, row.icon, row.color, if Truthy(row.budget) then row.budget else None,
             Some(0), Some(if Truthy(row.budget) then Expense else Income),
             Some(Names(GetOr(row.subcategories, []))))
  }

  /** The category `addCategory` appends: the stored row read back, without
      the subcategories the fetch would add. */
  function NewCategory(c: Category, id: string): (r: Category)
    ensures r.id == id && r.name == c.name && r.icon == c.icon && r.color == c.color
    ensures r.subcategories.None?
  {
    var row := CategoryRow(id, c.name, c.icon, c.color, if Truthy(c.budget) then c.budget else None, None);
    CategoryOf(row).(subcategories := None)
  }

  /** A category keeps its budget through `addCategory` exactly when the
      budget is truthy, and is then an expense category; a zero budget is
      lost and the category becomes an income category, whatever its type. */
  lemma NewCategoryBudget(c: Category, id: string)
    ensures Truthy(c.budget) ==> NewCategory(c, id).budget == c.budget && NewCategory(c, id).kind == Some(Expense)
    ensures !Truthy(c.budget) ==> NewCategory(c, id).budget.None? && NewCategory(c, id).kind == Some(Income)
  {
  }

  function CatHasId(id: string): Category -> bool
  {
    (c: Category) => c.id == id
  }

  function ReplaceCategory(cs: seq<Category>, c: Category): seq<Category>
  {
    MapWhere(cs, CatHasId(c.id), (_: Category) => c)
  }

  function RemoveCategory(cs: seq<Category>, id: string): seq<Category>
  {
    Filter(cs, (c: Category) => c.id != id)
  }

  /** Replacing puts `c` at every position of its id and nowhere else. */
  lemma ReplaceCategoryExactly(cs: seq<Category>, c: Category)
    ensures var r := ReplaceCategory(cs, c);
      && |r| == |cs|
      && (forall i :: 0 <= i < |cs| ==> r[i] == if cs[i].id == c.id then c else cs[i])
  {
  }

  /** Deleting removes exactly the categories with the id and keeps every
      other one, as often as it occurred. */
  lemma RemoveCategoryExactly(cs: seq<Category>, id: string)
    ensures var r := RemoveCategory(cs, id);
      && (forall c: Category :: c in r ==> c.id != id)
      && (forall c: Category :: c.id != id ==> multiset(r)[c] == multiset(cs)[c])
  {
    FilterMultiset(cs, (c: Category) => c.id != id);
  }

  /** The categories of the signed-in user as the hook holds them. */
  class CategoryStore {
    var user: Option<string>
    var categories: seq<Category>

    /** The fetch: the rows, oldest first, mapped to categories. */
    constructor (user: Option<string>, rows: seq<CategoryRow>)
      ensures this.user == user
      ensures user.None? ==> categories == []
      ensures user.Some? ==>
        |categories| == |rows| && forall i :: 0 <= i < |rows| ==> categories[i] == CategoryOf(rows[i])
    {
      this.user := user;
      categories := if user.None? then [] else seq(|rows|, i requires 0 <= i < |rows| => CategoryOf(rows[i]));
    }

    /** `addCategory`: the stored category goes at the end. */
    method AddCategory(c: Category, id: string)
      modifies this
      ensures user == old(user)
      ensures categories == if user.None? then old(categories) else old(categories) + [NewCategory(c, id)]
    {
      if user.None? {
        return;
      }
      categories := categories + [NewCategory(c, id)];
    }

    method UpdateCategory(c: Category)
      modifies this
      ensures user == old(user)
      ensures categories == if user.None? then old(categories) else ReplaceCategory(old(categories), c)
    {
      if user.None? {
        return;
      }
      categories := ReplaceCategory(categories, c);
    }

    method DeleteCategory(id: string)
      modifies this
      ensures user == old(user)
      ensures categories == if user.None? then old(categories) else RemoveCategory(old(categories), id)
    {
      if user.None? {
        return;
      }
      categories := RemoveCategory(categories, id);
    }
  }
}
