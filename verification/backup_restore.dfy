/** Backup and restore (`BackupRestore`): the export payload, and the JSON
    import that checks each record, normalises it and hands it to the add
    callbacks, counting what it added. The JSON text is abstract: the import
    receives the parsed value, or `None` when `JSON.parse` throws. */
module BackupRestore {
  import opened Common
  import opened Text
  import Amounts
  import ExpenseTypes
  import SavingGoals
  import Debts

  /** A parsed JSON value; numbers are integers here. */
  datatype Json =
    | JNull
    | JBool(b: bool)
    | JNum(n: int)
    | JStr(s: string)
    | JArr(items: seq<Json>)
    | JObj(fields: map<string, Json>)

  /** `v?.key`: `None` is `undefined`, for a missing key or a value that is
      not an object. */
  function Field(v: Json, key: string): (r: Option<Json>)
    ensures r.Some? <==> v.JObj? && key in v.fields
  {
    if v.JObj? && key in v.fields then Some(v.fields[key]) else None
  }

  /** JavaScript truthiness of a possibly undefined value. */
  predicate IsTruthy(v: Option<Json>)
  {
    match v
    case None => false
    case Some(JNull) => false
    case Some(JBool(b)) => b
    case Some(JNum(n)) => n != 0
    case Some(JStr(s)) => s != ""
    case Some(_) => true
  }

  /** `typeof v === "number"` */
  predicate IsNumber(v: Option<Json>)
  {
    v.Some? && v.value.JNum?
  }

  /** `Array.isArray(v) ? v : []` */
  function ArrayOr(v: Option<Json>): (r: seq<Json>)
    ensures v.Some? && v.value.JArr? ==> r == v.value.items
    ensures !(v.Some? && v.value.JArr?) ==> r == []
  {
    if v.Some? && v.value.JArr? then v.value.items else []
  }

  /** `String(v)`: arrays join their elements with commas, `null` inside an
      array giving nothing; an object reads `[object Object]`. */
  function StringOf(v: Json): string
    decreases v
  {
    match v
    case JNull => "null"
    case JBool(b) => if b then "true" else "false"
    case JNum(n) => IntToString(n)
    case JStr(s) => s
    case JArr(items) => Join(seq(|items|, i requires 0 <= i < |items| => if items[i].JNull? then "" else StringOf(items[i])), ",")
    case JObj(_) => "[object Object]"
  }

  /** `Number(text)`: white space around the text is ignored and blank text
      reads 0; otherwise an optional sign before decimal digits. Anything
      else is `NaN`, as `None`. */
  function NumberOfText(s: string): (r: Option<int>)
    ensures AllWhiteSpace(s) ==> r == Some(0)
    ensures r.Some? && !AllWhiteSpace(s) ==> AllDigits(Amounts.SignlessBody(Trim(s)))
  {
    TrimEmptyIffBlank(s);
    var t := Trim(s);
    var body := Amounts.SignlessBody(t);
    if t == "" then Some(0)
    else if body != [] && AllDigits(body) then Some(if t[0] == '-' then -(ValueOf(body) as int) else ValueOf(body))
    else None
  }

  /** Digits read as the number they denote, after a `-` as its negation
      and after a `+` as itself. */
  lemma NumberOfSignedDigits(d: string)
    requires AllDigits(d) && d != []
    ensures NumberOfText(d) == Some(ValueOf(d))
    ensures NumberOfText("-" + d) == Some(-(ValueOf(d) as int))
    ensures NumberOfText("+" + d) == Some(ValueOf(d))
  {
    NumberOfSigned("", d);
    NumberOfSigned("-", d);
    NumberOfSigned("+", d);
    assert "" + d == d;
  }

  lemma NumberOfSigned(sign: string, d: string)
    requires |sign| <= 1 && AllDigits(d) && d != []
    requires sign == [] || sign[0] == '-' || sign[0] == '+'
    ensures NumberOfText(sign + d) == Some(if sign == "-" then -(ValueOf(d) as int) else ValueOf(d))
  {
    var s := sign + d;
    TrimDigits(sign, d);
    assert !AllWhiteSpace(s) by {
      assert s[|s| - 1] == d[|d| - 1] && IsDigit(d[|d| - 1]);
    }
    assert Amounts.SignlessBody(s) == d by {
      if sign != [] {
        assert s[1..] == d;
      }
    }
    assert s[0] == '-' <==> sign == "-";
  }

  /** A sign or nothing before digits is left alone by `trim`. */
  lemma TrimDigits(sign: string, d: string)
    requires |sign| <= 1 && AllDigits(d) && d != []
    requires sign == [] || sign[0] == '-' || sign[0] == '+'
    ensures Trim(sign + d) == sign + d
  {
    var s := sign + d;
    var last := |d| - 1;
    assert IsDigit(d[0]) && IsDigit(d[last]);
    assert s[0] == (if sign == [] then d[0] else sign[0]);
    assert s[|s| - 1] == d[last];
    NoTrim(s);
  }

  lemma NoTrim(s: string)
    requires s != [] && !IsWhiteSpace(s[0]) && !IsWhiteSpace(s[|s| - 1])
    ensures Trim(s) == s
  {
    assert TrimStart(s) == s;
  }

  /** `Number(String(n))` is `n`. */
  lemma NumberOfIntToString(n: int)
    ensures NumberOfText(IntToString(n)) == Some(n)
  {
    NumberOfSignedDigits(NatToString(if n < 0 then -n else n));
  }

  /** `Number(v)` for the values a backup holds: `None` is `NaN`. An array
      reads as its `String` form. */
  function NumberOf(v: Json): (r: Option<int>)
    ensures v.JNum? ==> r == Some(v.n)
    ensures v.JStr? ==> r == NumberOfText(v.s)
    ensures v.JArr? ==> r == NumberOfText(StringOf(v))
    ensures v.JObj? ==> r.None?
  {
    match v
    case JNull => Some(0)
    case JBool(b) => Some(if b then 1 else 0)
    case JNum(n) => Some(n)
    case JStr(s) => NumberOfText(s)
    case JArr(_) => NumberOfText(StringOf(v))
    case JObj(_) => None
  }

  /** `Number([])` and `Number([null])` are 0, `Number([n])` is `n`, and
      `Number([s])` is `Number(s)`. */
  lemma NumberOfArrays(n: int, s: string)
    ensures NumberOf(JArr([])) == Some(0)
    ensures NumberOf(JArr([JNull])) == Some(0)
    ensures NumberOf(JArr([JNum(n)])) == Some(n)
    ensures NumberOf(JArr([JStr(s)])) == NumberOf(JStr(s))
  {
    StringOfShortArray(JNull);
    StringOfShortArray(JNum(n));
    StringOfShortArray(JStr(s));
    NumberOfIntToString(n);
  }

  /** `String([])` is empty and `String([x])` is `String(x)`, with `null`
      giving the empty text. */
  lemma StringOfShortArray(x: Json)
    ensures StringOf(JArr([])) == ""
    ensures StringOf(JArr([x])) == if x.JNull? then "" else StringOf(x)
  {
    var items := [x];
    var parts := seq(|items|, i requires 0 <= i < |items| => if items[i].JNull? then "" else StringOf(items[i]));
    assert parts == [if x.JNull? then "" else StringOf(x)];
  }

  /** A goal's or a debt's amount written as signed text, such as `"-5"`,
      is read with its sign. */
  lemma SignedTextAmount(d: string)
    requires AllDigits(d) && d != []
    ensures AmountOr0(Some(JStr("-" + d))) == Some(-(ValueOf(d) as int))
  {
    NumberOfSignedDigits(d);
  }

  /** `String(v || fallback)` */
  function TextOr(v: Option<Json>, fallback: string): (r: string)
    ensures !IsTruthy(v) ==> r == fallback
    ensures IsTruthy(v) ==> r == StringOf(v.value)
  {
    if IsTruthy(v) then StringOf(v.value) else fallback
  }

  /** `v ? String(v) : undefined` */
  function OptionalText(v: Option<Json>): (r: Option<string>)
    ensures r.Some? <==> IsTruthy(v)
    ensures r.Some? ==> r.value == StringOf(v.value)
  {
    if IsTruthy(v) then Some(StringOf(v.value)) else None
  }

  /** `Number(v || 0)` */
  function AmountOr0(v: Option<Json>): (r: Option<int>)
    ensures !IsTruthy(v) ==> r == Some(0)
    ensures IsTruthy(v) ==> r == NumberOf(v.value)
  {
    if IsTruthy(v) then NumberOf(v.value) else Some(0)
  }

  /** The four kinds of record handed to the add callbacks. */
  datatype CategoryPayload = CategoryPayload(
    name: string, kind: ExpenseTypes.TxType, icon: string, color: string,
    subcategories: seq<Json>, budget: Option<int>)

  datatype TransactionPayload = TransactionPayload(
    amount: int, kind: ExpenseTypes.TxType, category: string, subcategory: Option<string>,
    description: string, date: string, isRecurring: bool, tags: seq<Json>)

  datatype GoalPayload = GoalPayload(
    name: string, targetAmount: int, currentAmount: Option<int>, deadline: Option<string>, color: string)

  datatype DebtPayload = DebtPayload(
    name: string, totalAmount: int, paidAmount: Option<int>, creditor: string,
    reason: Option<string>, dueDate: Option<string>, createdAt: string, updatedAt: string)

  /** One call to an add callback, in the order the import makes them. */
  datatype Call =
    | AddCategory(category: CategoryPayload)
    | AddTransaction(transaction: TransactionPayload)
    | AddGoal(goal: GoalPayload)
    | AddDebt(debt: DebtPayload)

  /** `"income"` exactly gives an income, anything else an expense. */
  function KindOf(v: Option<Json>): (r: ExpenseTypes.TxType)
    ensures r == ExpenseTypes.Income <==> v == Some(JStr("income"))
  {
    if v == Some(JStr("income")) then ExpenseTypes.Income else ExpenseTypes.Expense
  }

  /** The category loop body: a record without a truthy name is skipped. */
  function CategoryStep(c: Json): (r: Option<Call>)
    ensures r.Some? <==> IsTruthy(Field(c, "name"))
    ensures r.Some? ==> r.value.AddCategory?
    ensures r.Some? && r.value.AddCategory? ==>
      var p := r.value.category;
      && p.name == StringOf(Field(c, "name").value)
      && p.kind == KindOf(Field(c, "type"))
      && p.icon == TextOr(Field(c, "icon"), "Circle")
      && p.color == TextOr(Field(c, "color"), "hsl(0, 0%, 50%)")
      && p.subcategories == ArrayOr(Field(c, "subcategories"))
      && (p.budget.Some? <==> IsNumber(Field(c, "budget")))
  {
    if !IsTruthy(Field(c, "name")) then None
    else
      var budget := Field(c, "budget");
      Some(AddCategory(CategoryPayload(
        StringOf(Field(c, "name").value),
        KindOf(Field(c, "type")),
        TextOr(Field(c, "icon"), "Circle"),
        TextOr(Field(c, "color"), "hsl(0, 0%, 50%)"),
        ArrayOr(Field(c, "subcategories")),
        if IsNumber(budget) then Some(budget.value.n) else None)))
  }

  /** The transaction loop body: a record needs a numeric amount and a truthy
      type, category and date; its date is cut to ten characters. */
  function TransactionStep(t: Json): (r: Option<Call>)
    ensures r.Some? <==>
      IsNumber(Field(t, "amount")) && IsTruthy(Field(t, "type")) && IsTruthy(Field(t, "category"))
      && IsTruthy(Field(t, "date"))
    ensures r.Some? ==> r.value.AddTransaction?
    ensures r.Some? && r.value.AddTransaction? ==>
      var p := r.value.transaction;
      && p.amount == Field(t, "amount").value.n
      && p.kind == KindOf(Field(t, "type"))
      && p.category == StringOf(Field(t, "category").value)
      && p.subcategory == OptionalText(Field(t, "subcategory"))
      && p.description == TextOr(Field(t, "description"), "")
      && p.date == Prefix(StringOf(Field(t, "date").value), 10) && |p.date| <= 10
      && p.isRecurring == IsTruthy(Field(t, "isRecurring"))
      && p.tags == ArrayOr(Field(t, "tags"))
  {
    var amount := Field(t, "amount");
    if !IsNumber(amount) || !IsTruthy(Field(t, "type")) || !IsTruthy(Field(t, "category"))
      || !IsTruthy(Field(t, "date")) then None
    else
      Some(AddTransaction(TransactionPayload(
        amount.value.n,
        KindOf(Field(t, "type")),
        StringOf(Field(t, "category").value),
        OptionalText(Field(t, "subcategory")),
        TextOr(Field(t, "description"), ""),
        Prefix(StringOf(Field(t, "date").value), 10),
        IsTruthy(Field(t, "isRecurring")),
        ArrayOr(Field(t, "tags")))))
  }

  /** The goal loop body: a record needs a truthy name and a numeric target. */
  function GoalStep(g: Json): (r: Option<Call>)
    ensures r.Some? <==> IsTruthy(Field(g, "name")) && IsNumber(Field(g, "targetAmount"))
    ensures r.Some? ==> r.value.AddGoal?
    ensures r.Some? && r.value.AddGoal? ==>
      var p := r.value.goal;
      && p.name == StringOf(Field(g, "name").value)
      && p.targetAmount == Field(g, "targetAmount").value.n
      && p.currentAmount == AmountOr0(Field(g, "currentAmount"))
      && p.deadline == OptionalText(Field(g, "deadline"))
      && p.color == TextOr(Field(g, "color"), "")
  {
    var target := Field(g, "targetAmount");
    if !IsTruthy(Field(g, "name")) || !IsNumber(target) then None
    else
      Some(AddGoal(GoalPayload(
        StringOf(Field(g, "name").value),
        target.value.n,
        AmountOr0(Field(g, "currentAmount")),
        OptionalText(Field(g, "deadline")),
        TextOr(Field(g, "color"), ""))))
  }

  /** The debt loop body: a record needs a truthy name and a numeric total;
      both timestamps are the time of the import. */
  function DebtStep(d: Json, now: string): (r: Option<Call>)
    ensures r.Some? <==> IsTruthy(Field(d, "name")) && IsNumber(Field(d, "totalAmount"))
    ensures r.Some? ==> r.value.AddDebt?
    ensures r.Some? && r.value.AddDebt? ==>
      var p := r.value.debt;
      && p.name == StringOf(Field(d, "name").value)
      && p.totalAmount == Field(d, "totalAmount").value.n
      && p.paidAmount == AmountOr0(Field(d, "paidAmount"))
      && p.creditor == TextOr(Field(d, "creditor"), "")
      && p.reason == OptionalText(Field(d, "reason"))
      && p.dueDate == OptionalText(Field(d, "dueDate"))
      && p.createdAt == now && p.updatedAt == now
  {
    var total := Field(d, "totalAmount");
    if !IsTruthy(Field(d, "name")) || !IsNumber(total) then None
    else
      Some(AddDebt(DebtPayload(
        StringOf(Field(d, "name").value),
        total.value.n,
        AmountOr0(Field(d, "paidAmount")),
        TextOr(Field(d, "creditor"), ""),
        OptionalText(Field(d, "reason")),
        OptionalText(Field(d, "dueDate")),
        now, now)))
  }

  function DebtStepAt(now: string): Json -> Option<Call>
  {
    (d: Json) => DebtStep(d, now)
  }

  /** The calls a loop makes over `items`, in order. */
  function Collected(items: seq<Json>, step: Json -> Option<Call>): (r: seq<Call>)
    ensures |r| <= |items|
  {
    if items == [] then []
    else
      var last := step(items[|items| - 1]);
      Collected(items[..|items| - 1], step) + (if last.Some? then [last.value] else [])
  }

  function Passes(step: Json -> Option<Call>): Json -> bool
  {
    (x: Json) => step(x).Some?
  }

  /** A loop makes one call per record that passes its check, and every call
      comes from such a record. */
  lemma {:induction false} CollectedCounts(items: seq<Json>, step: Json -> Option<Call>)
    ensures |Collected(items, step)| == |Filter(items, Passes(step))|
    ensures forall c :: c in Collected(items, step) ==> exists x :: x in items && step(x) == Some(c)
  {
    if items != [] {
      var init := items[..|items| - 1];
      var last := items[|items| - 1];
      CollectedCounts(init, step);
      assert items == init + [last];
      FilterConcat(init, [last], Passes(step));
      assert Filter([last], Passes(step)) == if step(last).Some? then [last] else [];
    }
  }

  /** `Array.isArray(data?.key) ? data.key : []` */
  function Section(data: Json, key: string): seq<Json>
  {
    ArrayOr(Field(data, key))
  }

  /** How an import ends: the file did not parse, or the calls it made and
      the four counters of the success message. */
  datatype ImportResult =
    | Failed
    | Imported(calls: seq<Call>, categories: nat, transactions: nat, goals: nat, debts: nat)

  /** The import, section by section: categories, then transactions, then
      goals, then debts. */
  function ImportOf(parsed: Option<Json>, now: string): (r: ImportResult)
    ensures r.Failed? <==> parsed.None?
  {
    match parsed
    case None => Failed
    case Some(data) =>
      var cs := Collected(Section(data, "categories"), CategoryStep);
      var ts := Collected(Section(data, "transactions"), TransactionStep);
      var gs := Collected(Section(data, "goals"), GoalStep);
      var ds := Collected(Section(data, "debts"), DebtStepAt(now));
      Imported(cs + ts + gs + ds, |cs|, |ts|, |gs|, |ds|)
  }

  /** The position of a call's kind in the import order. */
  function Stage(c: Call): nat
  {
    match c
    case AddCategory(_) => 0
    case AddTransaction(_) => 1
    case AddGoal(_) => 2
    case AddDebt(_) => 3
  }

  lemma CollectedStages(items: seq<Json>, step: Json -> Option<Call>, stage: nat)
    requires forall x :: step(x).Some? ==> Stage(step(x).value) == stage
    ensures forall c :: c in Collected(items, step) ==> Stage(c) == stage
  {
    CollectedCounts(items, step);
  }

  /** Each counter is the number of records in its section that passed the
      check, and there is one call per counted record. */
  lemma ImportCounts(data: Json, now: string)
    ensures var r := ImportOf(Some(data), now);
      && r.categories == |Filter(Section(data, "categories"), Passes(CategoryStep))|
      && r.transactions == |Filter(Section(data, "transactions"), Passes(TransactionStep))|
      && r.goals == |Filter(Section(data, "goals"), Passes(GoalStep))|
      && r.debts == |Filter(Section(data, "debts"), Passes(DebtStepAt(now)))|
      && |r.calls| == r.categories + r.transactions + r.goals + r.debts
  {
    CollectedCounts(Section(data, "categories"), CategoryStep);
    CollectedCounts(Section(data, "transactions"), TransactionStep);
    CollectedCounts(Section(data, "goals"), GoalStep);
    CollectedCounts(Section(data, "debts"), DebtStepAt(now));
  }

  /** Every category call comes before every transaction call, every
      transaction call before every goal call, every goal call before every
      debt call. */
  lemma ImportOrder(data: Json, now: string)
    ensures var r := ImportOf(Some(data), now);
      forall i, j :: 0 <= i < j < |r.calls| ==> Stage(r.calls[i]) <= Stage(r.calls[j])
  {
    CollectedStages(Section(data, "categories"), CategoryStep, 0);
    CollectedStages(Section(data, "transactions"), TransactionStep, 1);
    CollectedStages(Section(data, "goals"), GoalStep, 2);
    CollectedStages(Section(data, "debts"), DebtStepAt(now), 3);
    StagesInOrder(
      Collected(Section(data, "categories"), CategoryStep),
      Collected(Section(data, "transactions"), TransactionStep),
      Collected(Section(data, "goals"), GoalStep),
      Collected(Section(data, "debts"), DebtStepAt(now)));
  }

  lemma StagesInOrder(cs: seq<Call>, ts: seq<Call>, gs: seq<Call>, ds: seq<Call>)
    requires forall c :: c in cs ==> Stage(c) == 0
    requires forall c :: c in ts ==> Stage(c) == 1
    requires forall c :: c in gs ==> Stage(c) == 2
    requires forall c :: c in ds ==> Stage(c) == 3
    ensures var calls := cs + ts + gs + ds;
      forall i, j :: 0 <= i < j < |calls| ==> Stage(calls[i]) <= Stage(calls[j])
  {
    var calls := cs + ts + gs + ds;
    forall i | 0 <= i < |calls| ensures Stage(calls[i]) == StageAt(|cs|, |ts|, |gs|, i) {
      if i < |cs| {
        assert calls[i] == cs[i];
      } else if i < |cs| + |ts| {
        assert calls[i] == ts[i - |cs|];
      } else if i < |cs| + |ts| + |gs| {
        assert calls[i] == gs[i - |cs| - |ts|];
      } else {
        assert calls[i] == ds[i - |cs| - |ts| - |gs|];
      }
    }
  }

  /** The stage of position `i` in a call list made of `a` category, `b`
      transaction and `c` goal calls followed by debt calls. */
  function StageAt(a: nat, b: nat, c: nat, i: int): nat
  {
    if i < a then 0 else if i < a + b then 1 else if i < a + b + c then 2 else 3
  }

  /** One loop of `importJSON`: each record is checked, and the ones that
      pass go to the callback and are counted. */
  method ImportSection(items: seq<Json>, step: Json -> Option<Call>) returns (calls: seq<Call>, added: nat)
    ensures calls == Collected(items, step)
    ensures added == |calls|
  {
    calls := [];
    added := 0;
    for i := 0 to |items|
      invariant calls == Collected(items[..i], step)
      invariant added == |calls|
    {
      assert items[..i + 1][..i] == items[..i];
      var call := step(items[i]);
      if call.None? {
        continue;
      }
      calls := calls + [call.value];
      added := added + 1;
    }
    assert items[..|items|] == items;
  }

  /** `importJSON`: a value that does not parse fails; otherwise the four
      sections are imported in order, a section that is not an array
      counting as empty. */
  method ImportJSON(parsed: Option<Json>, now: string) returns (result: ImportResult)
    ensures result == ImportOf(parsed, now)
  {
    if parsed.None? {
      return Failed;
    }
    var data := parsed.value;
    var cs, cAdded := ImportSection(Section(data, "categories"), CategoryStep);
    var ts, tAdded := ImportSection(Section(data, "transactions"), TransactionStep);
    var gs, gAdded := ImportSection(Section(data, "goals"), GoalStep);
    var ds, dAdded := ImportSection(Section(data, "debts"), DebtStepAt(now));
    result := Imported(cs + ts + gs + ds, cAdded, tAdded, gAdded, dAdded);
  }

  /** The export payload. */
  datatype Backup = Backup(
    version: int,
    exportedAt: string,
    transactions: seq<ExpenseTypes.Transaction>,
    categories: seq<ExpenseTypes.Category>,
    goals: seq<SavingGoals.SavingGoal>,
    debts: seq<Debts.Debt>)

  /** `payload`: format version 1, the time of export, the four lists. */
  function ExportPayload(transactions: seq<ExpenseTypes.Transaction>, categories: seq<ExpenseTypes.Category>,
                         goals: seq<SavingGoals.SavingGoal>, debts: seq<Debts.Debt>, now: string): (b: Backup)
    ensures b.version == 1 && b.exportedAt == now
    ensures b.transactions == transactions && b.categories == categories
    ensures b.goals == goals && b.debts == debts
  {
    Backup(1, now, transactions, categories, goals, debts)
  }

  function TypeName(k: ExpenseTypes.TxType): string
  {
    if k == ExpenseTypes.Income then "income" else "expense"
  }

  function TagsJson(tags: seq<string>): (r: seq<Json>)
    ensures |r| == |tags| && forall i :: 0 <= i < |tags| ==> r[i] == JStr(tags[i])
  {
    seq(|tags|, i requires 0 <= i < |tags| => JStr(tags[i]))
  }

  /** `JSON.stringify` of an exported transaction, parsed back. */
  function TransactionJson(t: ExpenseTypes.Transaction): Json
  {
    var base := map[
      "id" := JStr(t.id), "amount" := JNum(t.amount), "type" := JStr(TypeName(t.kind)),
      "category" := JStr(t.category), "description" := JStr(t.description), "date" := JStr(t.date),
      "isRecurring" := JBool(t.isRecurring), "tags" := JArr(TagsJson(t.tags))];
    JObj(if t.subcategory.Some? then base["subcategory" := JStr(t.subcategory.value)] else base)
  }

  /** A transaction exported and imported again comes back with the same
      amount, type, category, description, recurring flag and tags, its
      date cut to ten characters and an empty subcategory dropped; only one
      with an empty category or date is skipped. */
  lemma TransactionRoundTrip(t: ExpenseTypes.Transaction)
    ensures TransactionStep(TransactionJson(t)).Some? <==> t.category != "" && t.date != ""
    ensures t.category != "" && t.date != "" ==>
      TransactionStep(TransactionJson(t)) == Some(AddTransaction(TransactionPayload(
        t.amount, t.kind, t.category,
        if t.subcategory.Some? && t.subcategory.value != "" then t.subcategory else None,
        t.description, Prefix(t.date, 10), t.isRecurring, TagsJson(t.tags))))
  {
    TransactionFields(t);
  }

  /** What the import reads from an exported transaction. */
  lemma TransactionFields(t: ExpenseTypes.Transaction)
    ensures var v := TransactionJson(t);
      && Field(v, "amount") == Some(JNum(t.amount))
      && Field(v, "type") == Some(JStr(TypeName(t.kind)))
      && Field(v, "category") == Some(JStr(t.category))
      && Field(v, "date") == Some(JStr(t.date))
      && Field(v, "description") == Some(JStr(t.description))
      && Field(v, "isRecurring") == Some(JBool(t.isRecurring))
      && Field(v, "tags") == Some(JArr(TagsJson(t.tags)))
      && Field(v, "subcategory") == if t.subcategory.Some? then Some(JStr(t.subcategory.value)) else None
  {
  }
}
