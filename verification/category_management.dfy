/** The category manager (`CategoryManagement`): the add and edit form, the
    subcategory text it parses, the categories it hands to its callbacks, the
    set of expanded categories, and the split into expense and income lists. */
module CategoryManagement {
  import opened Common
  import opened Text
  import opened ExpenseTypes
  import opened Amounts

  /** The separators of the subcategory text: the Arabic comma and the comma. */
  const Separators: set<char> := {'،', ','}

  /** What `openEditModal` joins the subcategory names with. */
  const JoinSeparator := "، "

  const DefaultIcon := "Receipt"
  const DefaultColor := "hsl(38, 92%, 50%)"

  function TrimAll(ps: seq<string>): (r: seq<string>)
    ensures |r| == |ps| && forall i :: 0 <= i < |ps| ==> r[i] == Trim(ps[i])
  {
    if ps == [] then [] else [Trim(ps[0])] + TrimAll(ps[1..])
  }

  predicate NonEmpty(s: string)
  {
    |s| > 0
  }

  /** `input.split(/[،,]/).map(s => s.trim()).filter(s => s.length > 0)` */
  function ParseSubcategories(input: string): (r: seq<string>)
    ensures forall n :: n in r ==> n != "" && FreeOf(n, Separators)
  {
    TrimAllFree(Split(input, Separators));
    Filter(TrimAll(Split(input, Separators)), NonEmpty)
  }

  /** Trimming keeps pieces free of separators. */
  lemma TrimAllFree(ps: seq<string>)
    requires forall k :: 0 <= k < |ps| ==> FreeOf(ps[k], Separators)
    ensures forall k :: 0 <= k < |TrimAll(ps)| ==> FreeOf(TrimAll(ps)[k], Separators)
  {
    forall k | 0 <= k < |ps| ensures FreeOf(Trim(ps[k]), Separators) {
      TrimFree(ps[k]);
    }
  }

  /** Trimming keeps a piece free of separators. */
  lemma TrimFree(p: string)
    requires FreeOf(p, Separators)
    ensures FreeOf(Trim(p), Separators)
  {
    var t := TrimStart(p);
    TrimStartSuffix(p);
    var r := TrimEnd(t);
    forall i | 0 <= i < |r| ensures r[i] !in Separators {
      assert r[i] == t[i] == p[|p| - |t| + i];
    }
  }

  /** A name the edit form can show and read back unchanged. */
  predicate PlainName(n: string)
  {
    n != "" && Trim(n) == n && FreeOf(n, Separators)
  }

  /** Joining plain names as `openEditModal` does and parsing the text as
      `handleSubmit` does gives the names back. */
  lemma SubcategoriesRoundTrip(names: seq<string>)
    requires forall i :: 0 <= i < |names| ==> PlainName(names[i])
    ensures ParseSubcategories(Join(names, JoinSeparator)) == names
  {
    var text := Join(names, JoinSeparator);
    if names == [] {
      EmptyTextNoNames();
    } else {
      PiecesOfJoin("", names);
      assert "" + text == text;
      FilterAll(names, NonEmpty);
    }
  }

  lemma EmptyTextNoNames()
    ensures ParseSubcategories("") == []
  {
    assert Split("", Separators) == [""];
    assert Trim("") == "";
  }

  /** The pieces the joined text splits into: the first name after `w`,
      every later one after the space of the separator. */
  function Padded(w: string, names: seq<string>): (r: seq<string>)
    requires names != []
    ensures |r| == |names| && r[0] == w + names[0]
    ensures forall i :: 1 <= i < |names| ==> r[i] == " " + names[i]
    decreases |names|
  {
    if |names| == 1 then [w + names[0]] else [w + names[0]] + Padded(" ", names[1..])
  }

  /** White space before the joined names stays with the first piece, which
      trimming removes. */
  lemma PiecesOfJoin(w: string, names: seq<string>)
    requires AllWhiteSpace(w) && FreeOf(w, Separators)
    requires names != [] && forall i :: 0 <= i < |names| ==> PlainName(names[i])
    ensures TrimAll(Split(w + Join(names, JoinSeparator), Separators)) == names
  {
    SplitJoin(w, names);
    TrimPadded(w, names);
  }

  lemma {:induction false} SplitJoin(w: string, names: seq<string>)
    requires FreeOf(w, Separators)
    requires names != [] && forall i :: 0 <= i < |names| ==> FreeOf(names[i], Separators)
    ensures Split(w + Join(names, JoinSeparator), Separators) == Padded(w, names)
    decreases |names|
  {
    var n := names[0];
    FreeConcat(w, n);
    if |names| == 1 {
      assert w + Join(names, JoinSeparator) == w + n;
      SplitFree(w + n, Separators);
    } else {
      var rest := Join(names[1..], JoinSeparator);
      JoinStep(w, names);
      SplitAfterPiece(w + n, '،', " " + rest, Separators);
      SplitJoin(" ", names[1..]);
    }
  }

  lemma TrimPadded(w: string, names: seq<string>)
    requires AllWhiteSpace(w)
    requires names != [] && forall i :: 0 <= i < |names| ==> PlainName(names[i])
    ensures TrimAll(Padded(w, names)) == names
  {
    var p := Padded(w, names);
    forall i | 0 <= i < |names| ensures Trim(p[i]) == names[i] {
      if i == 0 {
        TrimDropsLeadingSpace(w, names[0]);
      } else {
        TrimDropsLeadingSpace(" ", names[i]);
      }
    }
  }

  lemma JoinStep(w: string, names: seq<string>)
    requires |names| >= 2
    ensures w + Join(names, JoinSeparator) == (w + names[0]) + ['،'] + (" " + Join(names[1..], JoinSeparator))
  {
  }

  lemma FreeConcat(a: string, b: string)
    requires FreeOf(a, Separators) && FreeOf(b, Separators)
    ensures FreeOf(a + b, Separators)
  {
    forall i | 0 <= i < |a + b| ensures (a + b)[i] !in Separators {
      if i >= |a| {
        assert (a + b)[i] == b[i - |a|];
      }
    }
  }

  /** The form fields. `budget` is the formatted text of the budget field;
      `editing` is the category being edited, `None` when adding. */
  datatype FormFields = FormFields(
    name: string,
    icon: string,
    color: string,
    budget: string,
    kind: TxType,
    subcategoriesInput: string,
    editing: Option<Category>)

  /** `resetForm` */
  const BlankForm := FormFields("", DefaultIcon, DefaultColor, "", Expense, "", None)

  /** `category.subcategories || []`, as names. */
  function NamesOf(c: Category): seq<string>
  {
    if c.subcategories.None? then [] else SubcategoryNames(c.subcategories.value)
  }

  /** `openEditModal(category)`: the form shows the category; a category
      with a budget is an expense category, any other an income category. */
  function EditForm(c: Category): (f: FormFields)
    ensures f.editing == Some(c) && f.name == c.name && f.icon == c.icon && f.color == c.color
    ensures f.budget == (if c.budget.Some? then IntToString(c.budget.value) else "")
    ensures f.kind == (if Truthy(c.budget) then Expense else Income)
    ensures f.subcategoriesInput == Join(NamesOf(c), JoinSeparator)
  {
    FormFields(c.name, c.icon, c.color, if c.budget.Some? then IntToString(c.budget.value) else "",
               if Truthy(c.budget) then Expense else Income, Join(NamesOf(c), JoinSeparator), Some(c))
  }

  /** What a submit hands on: nothing, a new category, or an edited one. */
  datatype SubmitOutcome = Rejected | Added(category: Category) | Edited(category: Category)

  /** The budget an expense category gets from non-empty text; text without
      a digit (which the formatted field cannot hold) gives `NaN`, kept here
      as no budget. */
  function BudgetOf(f: FormFields): Option<int>
  {
    if f.kind == Expense && f.budget != "" then
      match ParseInt(StripCommas(f.budget))
      case Some(n) => Some(n)
      case None => None
    else None
  }

  /** `handleSubmit`: a blank name is rejected; otherwise the category built
      from the form, keeping the id (when not empty) and the spent amount
      (when not zero) of the category being edited. */
  function Submitted(f: FormFields, freshId: string): (r: SubmitOutcome)
    ensures r == Rejected <==> Trim(f.name) == ""
    ensures r.Added? <==> Trim(f.name) != "" && f.editing.None?
    ensures r != Rejected ==>
      && r.category.name == Trim(f.name) && r.category.icon == f.icon && r.category.color == f.color
      && r.category.kind == Some(f.kind)
      && r.category.subcategories == Some(Names(ParseSubcategories(f.subcategoriesInput)))
      && (f.kind == Income || f.budget == "" ==> r.category.budget.None?)
      && r.category.id == (if f.editing.Some? && f.editing.value.id != "" then f.editing.value.id else freshId)
  {
    if Trim(f.name) == "" then Rejected
    else
      var spent := if f.editing.Some? && Truthy(f.editing.value.spent) then f.editing.value.spent.value else 0;
      var c := Category(
        if f.editing.Some? && f.editing.value.id != "" then f.editing.value.id else freshId,
        Trim(f.name), f.icon, f.color, BudgetOf(f), Some(spent), Some(f.kind),
        Some(Names(ParseSubcategories(f.subcategoriesInput))));
      if f.editing.Some? then Edited(c) else Added(c)
  }

  /** Opening a category for editing and submitting at once hands back the
      same category: same id, icon, colour, budget (when it has one) and
      subcategories, and the same spent amount (0 when it had none); only
      the name is trimmed, and the type follows the budget. */
  lemma EditRoundTrip(c: Category, freshId: string)
    requires c.id != "" && Trim(c.name) != ""
    requires forall i :: 0 <= i < |NamesOf(c)| ==> PlainName(NamesOf(c)[i])
    ensures Submitted(EditForm(c), freshId) == Edited(Category(
      c.id, Trim(c.name), c.icon, c.color,
      if Truthy(c.budget) then c.budget else None,
      Some(if Truthy(c.spent) then c.spent.value else 0),
      Some(if Truthy(c.budget) then Expense else Income),
      Some(Names(NamesOf(c)))))
  {
    SubcategoriesRoundTrip(NamesOf(c));
    if Truthy(c.budget) {
      ParseIntToString(c.budget.value);
    }
  }

  /** `expenseCategories`: a budget or the expense type. */
  predicate ListedAsExpense(c: Category)
  {
    Truthy(c.budget) || c.kind == Some(Expense)
  }

  /** `incomeCategories`: neither. */
  predicate ListedAsIncome(c: Category)
  {
    !Truthy(c.budget) && c.kind != Some(Expense)
  }

  /** The two lists split the categories: each category is on exactly one,
      as often as it occurs. */
  lemma ListsPartition(cs: seq<Category>)
    ensures forall c :: ListedAsExpense(c) != ListedAsIncome(c)
    ensures multiset(Filter(cs, ListedAsExpense)) + multiset(Filter(cs, ListedAsIncome)) == multiset(cs)
  {
    FilterMultiset(cs, ListedAsExpense);
    FilterMultiset(cs, ListedAsIncome);
  }

  /** The set of expanded ids with `id` flipped. */
  function Toggled(expanded: set<string>, id: string): (r: set<string>)
    ensures id in r <==> id !in expanded
    ensures forall x :: x != id ==> (x in r <==> x in expanded)
  {
    if id in expanded then expanded - {id} else expanded + {id}
  }

  /** The manager's state. */
  class CategoryManager {
    var form: FormFields
    var modalOpen: bool
    var expanded: set<string>
    var deleteId: Option<string>

    constructor ()
      ensures form == BlankForm && !modalOpen && expanded == {} && deleteId.None?
    {
      form := BlankForm;
      modalOpen := false;
      expanded := {};
      deleteId := None;
    }

    /** `toggleExpanded(id)`: a copy of the set, with `id` deleted or added. */
    method ToggleExpanded(id: string)
      modifies this
      ensures expanded == Toggled(old(expanded), id)
      ensures form == old(form) && modalOpen == old(modalOpen) && deleteId == old(deleteId)
    {
      var newSet := expanded;
      if id in newSet {
        newSet := newSet - {id};
      } else {
        newSet := newSet + {id};
      }
      expanded := newSet;
    }

    method OpenAddModal()
      modifies this
      ensures form == BlankForm && modalOpen
      ensures expanded == old(expanded) && deleteId == old(deleteId)
    {
      form := BlankForm;
      modalOpen := true;
    }

    method OpenEditModal(c: Category)
      modifies this
      ensures form == EditForm(c) && modalOpen
      ensures expanded == old(expanded) && deleteId == old(deleteId)
    {
      form := EditForm(c);
      modalOpen := true;
    }

    /** The expense / income buttons (`setCategoryType`). */
    method SetKind(kind: TxType)
      modifies this
      ensures form == old(form).(kind := kind)
      ensures modalOpen == old(modalOpen) && expanded == old(expanded) && deleteId == old(deleteId)
    {
      form := form.(kind := kind);
    }

    /** The name field's `onChange`: the text as typed. */
    method SetName(text: string)
      modifies this
      ensures form == old(form).(name := text)
      ensures modalOpen == old(modalOpen) && expanded == old(expanded) && deleteId == old(deleteId)
    {
      form := form.(name := text);
    }

    /** The subcategories field's `onChange`: the text as typed. */
    method SetSubcategoriesInput(text: string)
      modifies this
      ensures form == old(form).(subcategoriesInput := text)
      ensures modalOpen == old(modalOpen) && expanded == old(expanded) && deleteId == old(deleteId)
    {
      form := form.(subcategoriesInput := text);
    }

    /** An icon button (`setSelectedIcon`). */
    method SetIcon(icon: string)
      modifies this
      ensures form == old(form).(icon := icon)
      ensures modalOpen == old(modalOpen) && expanded == old(expanded) && deleteId == old(deleteId)
    {
      form := form.(icon := icon);
    }

    /** A colour swatch (`setSelectedColor`). */
    method SetColor(color: string)
      modifies this
      ensures form == old(form).(color := color)
      ensures modalOpen == old(modalOpen) && expanded == old(expanded) && deleteId == old(deleteId)
    {
      form := form.(color := color);
    }

    /** The budget field's `onChange`: the typed text, reformatted, so the
        field only ever holds digits grouped by commas. */
    method TypeBudget(text: string)
      modifies this
      ensures form == old(form).(budget := FormatAmount(text))
      ensures forall i :: 0 <= i < |form.budget| ==> AmountChar(form.budget[i])
      ensures StripCommas(form.budget) == DigitsOf(text)
      ensures modalOpen == old(modalOpen) && expanded == old(expanded) && deleteId == old(deleteId)
    {
      form := form.(budget := FormatAmount(text));
      FormatAmountSpec(text);
    }

    /** `handleSubmit`: a rejected form stays open as it is; otherwise the
        category goes to the callback and the form closes, reset. */
    method Submit(freshId: string) returns (outcome: SubmitOutcome)
      modifies this
      ensures outcome == Submitted(old(form), freshId)
      ensures outcome == Rejected ==> form == old(form) && modalOpen == old(modalOpen)
      ensures outcome != Rejected ==> form == BlankForm && !modalOpen
      ensures expanded == old(expanded) && deleteId == old(deleteId)
    {
      outcome := Submitted(form, freshId);
      if outcome.Rejected? {
        return;
      }
      modalOpen := false;
      form := BlankForm;
    }

    method AskDelete(id: string)
      modifies this
      ensures deleteId == Some(id)
      ensures form == old(form) && modalOpen == old(modalOpen) && expanded == old(expanded)
    {
      deleteId := Some(id);
    }

    /** `handleDelete`: the chosen id, when there is one (and it is not
        empty), goes to the callback and the choice is cleared. */
    method ConfirmDelete() returns (deleted: Option<string>)
      modifies this
      ensures deleted == (if old(deleteId).Some? && old(deleteId).value != "" then old(deleteId) else None)
      ensures deleteId == (if deleted.Some? then None else old(deleteId))
      ensures form == old(form) && modalOpen == old(modalOpen) && expanded == old(expanded)
    {
      if deleteId.Some? && deleteId.value != "" {
        deleted := deleteId;
        deleteId := None;
      } else {
        deleted := None;
      }
    }
  }
}
