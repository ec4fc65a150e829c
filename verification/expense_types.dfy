/** The records the application stores and exchanges (transactions,
    categories and their subcategories, dashboard widgets) and the defaults it
    ships with. Amounts are whole numbers of rials. */
module ExpenseTypes {
  import opened Common

  /** `'income' | 'expense'`: a transaction is one or the other. */
  datatype TxType = Income | Expense

  /** A transaction. `isRecurring` and `tags` are optional in the record;
      every reader treats a missing flag as `false` and missing tags as none,
      so they are kept here with those values in place of "missing". */
  datatype Transaction = Transaction(
    id: string,
    amount: int,
    kind: TxType,
    category: string,
    subcategory: Option<string>,
    description: string,
    date: string,
    isRecurring: bool,
    reminderDays: Option<int>,
    nextDueDate: Option<string>,
    tags: seq<string>)

  /** A transaction before the store gives it an id (`Omit<Transaction, "id">`). */
  datatype Draft = Draft(
    amount: int,
    kind: TxType,
    category: string,
    subcategory: Option<string>,
    description: string,
    date: string,
    isRecurring: bool,
    tags: seq<string>)

  function AmountOf(t: Transaction): int
  {
    t.amount
  }

  /** `reduce((sum, t) => sum + t.amount, 0)` */
  function Total(ts: seq<Transaction>): int
  {
    SumOf(ts, AmountOf)
  }

  function OfKind(kind: TxType): Transaction -> bool
  {
    (t: Transaction) => t.kind == kind
  }

  function InCategory(name: string): Transaction -> bool
  {
    (t: Transaction) => t.category == name
  }

  /** The `[category, amount]` pair a per-category total adds. */
  function CategoryAmount(t: Transaction): (string, int)
  {
    (t.category, t.amount)
  }

  /** The per-category totals an object accumulates with
      `acc[t.category] = (acc[t.category] || 0) + t.amount`, keys in
      first-occurrence order. */
  function CategoryTotals(ts: seq<Transaction>): seq<(string, int)>
  {
    Totals(Map(ts, CategoryAmount))
  }

  /** Each category's total is the sum of the amounts of its transactions;
      a category without any has none. */
  lemma CategoryTotalIsSum(ts: seq<Transaction>, name: string)
    ensures Lookup(CategoryTotals(ts), name) == Total(Filter(ts, InCategory(name)))
  {
    TotalsLookup(Map(ts, CategoryAmount), name);
    SumForMap(ts, name);
  }

  lemma {:induction false} SumForMap(ts: seq<Transaction>, name: string)
    ensures SumFor(Map(ts, CategoryAmount), name) == Total(Filter(ts, InCategory(name)))
  {
    if ts != [] {
      SumForMap(ts[1..], name);
      assert Map(ts, CategoryAmount)[1..] == Map(ts[1..], CategoryAmount);
      SumOfConcat(if ts[0].category == name then [ts[0]] else [], Filter(ts[1..], InCategory(name)), AmountOf);
      if ts[0].category == name {
        assert ([ts[0]] + Filter(ts[1..], InCategory(name)))[1..] == Filter(ts[1..], InCategory(name));
      }
    }
  }

  /** Every entry of the per-category totals is its category's sum. */
  lemma CategoryTotalsEntry(ts: seq<Transaction>, i: int)
    requires 0 <= i < |CategoryTotals(ts)|
    ensures CategoryTotals(ts)[i].1 == Total(Filter(ts, InCategory(CategoryTotals(ts)[i].0)))
  {
    LookupEntry(CategoryTotals(ts), i);
    CategoryTotalIsSum(ts, CategoryTotals(ts)[i].0);
  }

  /** Every category of the expenses has an entry in their totals. */
  lemma CategoryHasEntry(expenses: seq<Transaction>, t: Transaction)
    requires t in expenses
    ensures exists j :: 0 <= j < |CategoryTotals(expenses)| && CategoryTotals(expenses)[j].0 == t.category
  {
    var pairs := Map(expenses, CategoryAmount);
    var keys := Keys(pairs);
    var k :| 0 <= k < |expenses| && expenses[k] == t;
    assert keys[k] == pairs[k].0 == t.category;
    var acc := CategoryTotals(expenses);
    assert Keys(acc) == Distinct(keys);
    assert t.category in Keys(acc);
    var j :| 0 <= j < |Keys(acc)| && Keys(acc)[j] == t.category;
    assert acc[j].0 == t.category;
  }

  /** Every entry of the totals is the category of some expense. */
  lemma EntryHasCategory(expenses: seq<Transaction>, j: int)
    requires 0 <= j < |CategoryTotals(expenses)|
    ensures exists t :: t in expenses && t.category == CategoryTotals(expenses)[j].0
  {
    var acc := CategoryTotals(expenses);
    var pairs := Map(expenses, CategoryAmount);
    var keys := Keys(pairs);
    var c := acc[j].0;
    assert Keys(acc) == Distinct(keys) && Keys(acc)[j] == c;
    assert c in keys;
    var i :| 0 <= i < |keys| && keys[i] == c;
    assert keys[i] == pairs[i].0 == expenses[i].category;
    assert expenses[i] in expenses;
  }

  /** `Array.from(totals.entries()).sort((a, b) => b[1] - a[1])[0]`, or
      nothing when there are no entries. */
  function TopEntry(acc: seq<(string, int)>): Option<(string, int)>
  {
    if acc == [] then None else Some(ByValueDesc(acc)[0])
  }

  /** The first entry of `TopEntry` bounds every entry and is one of them. */
  lemma TopEntryIsLargest(acc: seq<(string, int)>)
    ensures TopEntry(acc) == None <==> acc == []
    ensures TopEntry(acc).Some? ==>
      (exists k :: 0 <= k < |acc| && acc[k] == TopEntry(acc).value) &&
      forall j :: 0 <= j < |acc| ==> acc[j].1 <= TopEntry(acc).value.1
  {
    if acc != [] {
      ByValueDescFirst(acc);
      var top := ByValueDesc(acc)[0];
      var k :| 0 <= k < |acc| && acc[k] == top;
      forall j | 0 <= j < |acc| ensures acc[j].1 <= top.1 {
        assert acc[j] in acc;
      }
    }
  }

  /** The loop `forEach(t => acc[t.category] = (acc[t.category] || 0) + t.amount)`
      that the reports run over a list of ts: it builds the per-category
      totals, keys in first-occurrence order. */
  method SumByCategory(ts: seq<Transaction>) returns (acc: seq<(string, int)>)
    ensures acc == CategoryTotals(ts)
  {
    acc := [];
    for i := 0 to |ts|
      invariant acc == CategoryTotals(ts[..i])
    {
      var pairs := Map(ts[..i + 1], CategoryAmount);
      assert pairs[..i] == Map(ts[..i], CategoryAmount);
      acc := AddTo(acc, ts[i].category, ts[i].amount);
    }
    assert ts[..|ts|] == ts;
  }

  datatype Subcategory = Subcategory(id: string, name: string, categoryId: string)

  /** `string[] | Subcategory[]` */
  datatype SubcategoryList = Names(names: seq<string>) | Records(records: seq<Subcategory>)

  datatype Category = Category(
    id: string,
    name: string,
    icon: string,
    color: string,
    budget: Option<int>,
    spent: Option<int>,
    kind: Option<TxType>,
    subcategories: Option<SubcategoryList>)

  /** JavaScript truthiness of an optional number: present and not zero. */
  predicate Truthy(n: Option<int>)
  {
    n.Some? && n.value != 0
  }

  /** The names of a category's subcategories, whichever form they take
      (`typeof sub === 'string' ? sub : sub.name`). */
  function SubcategoryNames(subs: SubcategoryList): (r: seq<string>)
    ensures subs.Names? ==> r == subs.names
    ensures subs.Records? ==> |r| == |subs.records| && forall i :: 0 <= i < |r| ==> r[i] == subs.records[i].name
  {
    match subs
    case Names(names) => names
    case Records(records) => seq(|records|, i requires 0 <= i < |records| => records[i].name)
  }

  datatype WidgetKind = Balance | SpendingChart | TrendChart | BudgetCard | RecentTransactions

  datatype Widget = Widget(id: string, kind: WidgetKind, title: string, enabled: bool, order: int)

  /** The dashboard as first shown: every widget on, in list order. */
  const DefaultWidgets: seq<Widget> := [
      Widget("balance", Balance, "موجودی", true, 0),
      Widget("spending-chart", SpendingChart, "نمودار هزینه‌ها", true, 1),
      Widget("trend-chart", TrendChart, "روند مالی", true, 2),
      Widget("budget", BudgetCard, "وضعیت بودجه", true, 3),
      Widget("recent-transactions", RecentTransactions, "تراکنش‌های اخیر", true, 4)
  ]

  /** A built-in category: name, icon, colour and subcategory names. */
  datatype CategorySeed = CategorySeed(name: string, icon: string, color: string, subcategories: seq<string>)

  const DefaultExpenseCategories: seq<CategorySeed> := [
      CategorySeed("خوراک و خرید روزمره", "ShoppingCart", "hsl(38, 92%, 50%)",
        ["خرید سوپرمارکت", "رستوران و کافی‌شاپ", "خوراک بیرون‌بر", "خوراک مهمانی"]),
      CategorySeed("خانه و زندگی", "Home", "hsl(25, 95%, 53%)",
        ["اجاره / شارژ ساختمان", "قبوض", "لوازم خانگی", "تعمیرات منزل"]),
      CategorySeed("حمل و نقل", "Car", "hsl(199, 89%, 48%)",
        ["بنزین", "تاکسی / اسنپ", "سرویس خودرو", "اقساط خودرو"]),
      CategorySeed("سلامت و درمان", "Heart", "hsl(0, 72%, 51%)",
        ["دکتر و ویزیت", "دارو", "آزمایش", "بیمه درمانی"]),
      CategorySeed("خرید شخصی و پوشاک", "ShoppingBag", "hsl(330, 80%, 60%)",
        ["لباس", "کفش", "لوازم آرایشی", "اکسسوری"]),
      CategorySeed("سرگرمی و تفریح", "Gamepad2", "hsl(262, 83%, 58%)",
        ["سینما / تئاتر", "سفر", "کافی‌شاپ و دورهمی", "سرگرمی خانگی"]),
      CategorySeed("اشتراک‌ها و پرداخت ماهانه", "CreditCard", "hsl(210, 80%, 55%)",
        ["اشتراک آنلاین", "اینترنت و تلفن", "عضویت باشگاه"]),
      CategorySeed("مالی و بانک", "Landmark", "hsl(220, 70%, 45%)",
        ["اقساط و بدهی", "وام", "کارمزد انتقال", "سرمایه‌گذاری"]),
      CategorySeed("خانواده و روابط", "Users", "hsl(340, 75%, 55%)",
        ["هدیه", "کمک به خانواده", "هزینه فرزند"]),
      CategorySeed("آموزش و رشد فردی", "GraduationCap", "hsl(168, 76%, 42%)",
        ["دوره آموزشی", "کتاب", "سمینار و وبینار"]),
      CategorySeed("سایر هزینه‌ها", "MoreHorizontal", "hsl(220, 14%, 50%)",
        ["متفرقه"])
  ]

  const DefaultIncomeCategories: seq<CategorySeed> := [
      CategorySeed("حقوق و درآمد شغلی", "Wallet", "hsl(142, 71%, 45%)",
        ["حقوق ماهانه", "درآمد پروژه", "پاداش"]),
      CategorySeed("کار و پول‌سازی", "Briefcase", "hsl(160, 70%, 40%)",
        ["درآمد پروژه", "تجهیزات کاری", "نرم‌افزار کاری", "تبلیغات"]),
      CategorySeed("سرمایه‌گذاری", "TrendingUp", "hsl(168, 76%, 42%)",
        ["سود سهام", "سود بانکی", "کریپتو", "طلا و ارز"]),
      CategorySeed("سایر درآمدها", "Gift", "hsl(38, 92%, 50%)",
        ["هدیه", "فروش اجناس", "متفرقه"])
  ]

  /** The default widgets have distinct ids, are all enabled, and each one's
      `order` is its position in the list. */
  lemma DefaultWidgetsWellFormed()
    ensures |DefaultWidgets| == 5
    ensures forall i, j :: 0 <= i < j < |DefaultWidgets| ==> DefaultWidgets[i].id != DefaultWidgets[j].id
    ensures forall i :: 0 <= i < |DefaultWidgets| ==> DefaultWidgets[i].order == i && DefaultWidgets[i].enabled
  {
  }

  /** Every built-in category comes with at least one subcategory. */
  lemma DefaultCategoriesHaveSubcategories()
    ensures |DefaultExpenseCategories| == 11 && |DefaultIncomeCategories| == 4
    ensures forall i :: 0 <= i < |DefaultExpenseCategories| ==> DefaultExpenseCategories[i].subcategories != []
    ensures forall i :: 0 <= i < |DefaultIncomeCategories| ==> DefaultIncomeCategories[i].subcategories != []
  {
  }
}
