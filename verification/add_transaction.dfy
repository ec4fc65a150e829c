/** The add-transaction dialog (`AddTransactionModal`): the form state and
    its transitions, the subcategories offered for the chosen category, the
    categories offered for the chosen type, and the entry a submit hands to
    `onAdd`. */
module AddTransaction {
  import opened Common
  import opened Text
  import opened ExpenseTypes
  import opened Amounts
  import opened ReportingFilters

  /** What `handleSubmit` hands to `onAdd`. `amount` is `None` where
      `parseInt` gives `NaN`. */
  datatype Entry = Entry(
    id: string,
    kind: TxType,
    amount: Option<int>,
    category: string,
    subcategory: Option<string>,
    description: string,
    date: string,
    isRecurring: bool,
    tags: seq<string>)

  /** A category whose subcategories are records offers their names. */
  lemma RecordNamesOffered(categories: seq<Category>, k: int, i: int)
    requires 0 <= k < |categories| && categories[k].name != ""
    requires forall j :: 0 <= j < k ==> categories[j].name != categories[k].name
    requires categories[k].subcategories.Some? && categories[k].subcategories.value.Records?
    requires 0 <= i < |categories[k].subcategories.value.records|
    ensures categories[k].subcategories.value.records[i].name in SubcategoryOptions(categories, categories[k].name, "")
  {
    var name := categories[k].name;
    forall j | 0 <= j < k ensures !NameIs(name)(categories[j]) {
    }
    assert FindIndex(categories, NameIs(name)) == k;
    var r := SubcategoryOptions(categories, name, "");
    assert r[i] == categories[k].subcategories.value.records[i].name;
  }

  predicate HasBudget(c: Category)
  {
    Truthy(c.budget)
  }

  predicate NoBudget(c: Category)
  {
    !Truthy(c.budget)
  }

  /** The categories offered for the chosen type: those with a budget for
      an expense, the others for an income. */
  function CategoryChoices(categories: seq<Category>, kind: TxType): (r: seq<Category>)
    ensures forall c :: c in r <==> c in categories && (kind == Expense <==> Truthy(c.budget))
  {
    if kind == Expense then Filter(categories, HasBudget) else Filter(categories, NoBudget)
  }

  /** Every category is offered for exactly one of the two types. */
  lemma ChoicesPartition(categories: seq<Category>)
    ensures multiset(CategoryChoices(categories, Expense)) + multiset(CategoryChoices(categories, Income))
      == multiset(categories)
  {
    FilterMultiset(categories, HasBudget);
    FilterMultiset(categories, NoBudget);
  }

  /** Clicking a subcategory button: the selected one is deselected, any
      other is selected. */
  function Clicked(selected: string, sub: string): (r: string)
    ensures selected == sub ==> r == ""
    ensures selected != sub ==> r == sub
  {
    if selected == sub then "" else sub
  }

  /** After two clicks on the same button it is selected exactly when it
      was selected before; any other selection is gone. */
  lemma ClickTwice(selected: string, sub: string)
    requires sub != ""
    ensures Clicked(Clicked(selected, sub), sub) == (if selected == sub then sub else "")
  {
  }

  /** `quickAmounts` */
  const QuickAmounts: seq<string> := ["50,000", "100,000", "500,000", "1,000,000"]

  /** The entry built from the form: the amount with its commas removed and
      read by `parseInt`, an empty subcategory left out, no tags. */
  function EntryOf(kind: TxType, amount: string, category: string, subcategory: string,
                   description: string, date: string, isRecurring: bool, id: string): (e: Entry)
    ensures e.amount == ParseInt(StripCommas(amount))
    ensures e.subcategory.None? <==> subcategory == ""
    ensures e.subcategory.Some? ==> e.subcategory.value == subcategory
    ensures e.tags == [] && e.id == id && e.kind == kind && e.category == category
    ensures e.description == description && e.date == date && e.isRecurring == isRecurring
  {
    Entry(id, kind, ParseInt(StripCommas(amount)), category,
          if subcategory == "" then None else Some(subcategory), description, date, isRecurring, [])
  }

  /** An amount typed into the field is formatted as it is typed; once it
      holds a digit, the entry carries the number its digits denote. */
  lemma TypedAmountParses(kind: TxType, typed: string, category: string, subcategory: string,
                          description: string, date: string, isRecurring: bool, id: string)
    requires FormatAmount(typed) != ""
    ensures EntryOf(kind, FormatAmount(typed), category, subcategory, description, date, isRecurring, id).amount
      == Some(ValueOf(DigitsOf(typed)))
  {
    ParseFormatted(typed);
    FormatAmountSpec(typed);
    assert StripCommas(FormatAmount(typed)) == DigitsOf(typed);
    if DigitsOf(typed) == [] {
      assert StripCommas(FormatAmount(typed)) == [];
      FormatEmptyIfNoDigits(typed);
    }
  }

  /** A formatted amount without digits is empty. */
  lemma FormatEmptyIfNoDigits(typed: string)
    requires DigitsOf(typed) == []
    ensures FormatAmount(typed) == ""
  {
  }

  /** The dialog's fields. */
  class AddTransactionForm {
    var kind: TxType
    var amount: string
    var category: string
    var subcategory: string
    var description: string
    var date: string
    var isRecurring: bool

    /** A fresh dialog: an expense dated `today`, everything else empty. */
    constructor (today: string)
      ensures kind == Expense && amount == "" && category == "" && subcategory == ""
      ensures description == "" && date == today && !isRecurring
    {
      kind := Expense;
      amount := "";
      category := "";
      subcategory := "";
      description := "";
      date := today;
      isRecurring := false;
    }

    /** The submit button is disabled while the amount or the category is empty. */
    predicate SubmitDisabled()
      reads this
    {
      amount == "" || category == ""
    }

    /** The type buttons: switching the type clears the category and the
        subcategory. */
    method SetKind(k: TxType)
      modifies this
      ensures kind == k && category == "" && subcategory == ""
      ensures amount == old(amount) && description == old(description)
      ensures date == old(date) && isRecurring == old(isRecurring)
    {
      kind := k;
      category := "";
      subcategory := "";
    }

    /** Typing into the amount field stores the text formatted. */
    method TypeAmount(text: string)
      modifies this
      ensures amount == FormatAmount(text)
      ensures kind == old(kind) && category == old(category) && subcategory == old(subcategory)
      ensures description == old(description) && date == old(date) && isRecurring == old(isRecurring)
    {
      amount := FormatAmount(text);
    }

    /** A quick-amount button stores its text. */
    method PickQuickAmount(i: nat)
      requires i < |QuickAmounts|
      modifies this
      ensures amount == QuickAmounts[i]
      ensures kind == old(kind) && category == old(category) && subcategory == old(subcategory)
      ensures description == old(description) && date == old(date) && isRecurring == old(isRecurring)
    {
      amount := QuickAmounts[i];
    }

    /** `handleCategoryChange`: a new category clears the subcategory. */
    method ChangeCategory(value: string)
      modifies this
      ensures category == value && subcategory == ""
      ensures kind == old(kind) && amount == old(amount)
      ensures description == old(description) && date == old(date) && isRecurring == old(isRecurring)
    {
      category := value;
      subcategory := "";
    }

    method ClickSubcategory(sub: string)
      modifies this
      ensures subcategory == Clicked(old(subcategory), sub)
      ensures kind == old(kind) && amount == old(amount) && category == old(category)
      ensures description == old(description) && date == old(date) && isRecurring == old(isRecurring)
    {
      subcategory := if subcategory == sub then "" else sub;
    }

    method SetDescription(text: string)
      modifies this
      ensures description == text
      ensures kind == old(kind) && amount == old(amount) && category == old(category)
      ensures subcategory == old(subcategory) && date == old(date) && isRecurring == old(isRecurring)
    {
      description := text;
    }

    method SetDate(d: string)
      modifies this
      ensures date == d
      ensures kind == old(kind) && amount == old(amount) && category == old(category)
      ensures subcategory == old(subcategory) && description == old(description) && isRecurring == old(isRecurring)
    {
      date := d;
    }

    method SetRecurring(b: bool)
      modifies this
      ensures isRecurring == b
      ensures kind == old(kind) && amount == old(amount) && category == old(category)
      ensures subcategory == old(subcategory) && description == old(description) && date == old(date)
    {
      isRecurring := b;
    }

    /** `handleSubmit` (reachable only while the button is enabled): the
        entry goes to `onAdd`, then the amount, category, subcategory,
        description and recurring switch are reset; the type and the date
        stay for the next entry. */
    method Submit(id: string) returns (entry: Entry)
      requires !SubmitDisabled()
      modifies this
      ensures entry == EntryOf(old(kind), old(amount), old(category), old(subcategory),
                               old(description), old(date), old(isRecurring), id)
      ensures amount == "" && category == "" && subcategory == "" && description == "" && !isRecurring
      ensures kind == old(kind) && date == old(date)
    {
      entry := EntryOf(kind, amount, category, subcategory, description, date, isRecurring, id);
      amount := "";
      category := "";
      subcategory := "";
      description := "";
      isRecurring := false;
    }
  }
}
