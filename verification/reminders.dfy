/** Payment reminders (`useReminders`): for every recurring transaction, the
    next date in the current or the coming month that falls on the day of the
    month the transaction was made, shown when it is close enough and not
    dismissed; and the dismissed list kept in `localStorage`. Dates are
    local calendar dates; `today` is the clock's date at midnight. */
module Reminders {
  import opened Common
  import opened Text
  import opened Calendar
  import opened ExpenseTypes
  import opened Storage

  const DismissedKey := "dismissed-reminders"

  /** The reminder window of a transaction without one (or with 0). */
  const DefaultReminderDays := 3

  datatype Reminder = Reminder(
    id: string,
    transactionId: string,
    title: string,
    category: string,
    amount: int,
    dueDate: string,
    daysUntilDue: int)

  /** The next due date: day `dayOfMonth` of this month (rolling over past its
      end), or, when that is not after today, the same day one month on. */
  function NextDue(today: Date, dayOfMonth: int): (r: Date)
    requires ValidDate(today)
    ensures ValidDate(r)
  {
    var first := MakeDate(ConstructorYear(today.year), today.month - 1, dayOfMonth);
    if DayNumber(first) <= DayNumber(today) then SetMonth(first, first.month) else first
  }

  /** `Math.ceil((nextDue - today) / day)` for two local midnights. */
  function DaysUntil(today: Date, due: Date): int
    requires ValidDate(today) && ValidDate(due)
  {
    DayNumber(due) - DayNumber(today)
  }

  /** The due date always lies after today, so a reminder is never due
      today (for years the `Date` constructor does not reinterpret). */
  lemma NextDueAfterToday(today: Date, dayOfMonth: int)
    requires ValidDate(today) && !(0 <= today.year <= 99)
    requires 1 <= dayOfMonth <= 31
    ensures DaysUntil(today, NextDue(today, dayOfMonth)) >= 1
  {
    var y, m := today.year, today.month;
    var first := MakeDate(y, m - 1, dayOfMonth);
    MakeDateInMonth(y, m, dayOfMonth);
    NormalizeDayNumber(Date(y, m, dayOfMonth));
    if DayNumber(first) <= DayNumber(today) {
      DayNumberBounds(today);
      NormalizeValid(Date(y, m, dayOfMonth));
      assert first == Date(y, m, dayOfMonth);
      NextMonthLater(today, dayOfMonth);
    }
  }

  /** Day `dayOfMonth` one month on lies after today. */
  lemma NextMonthLater(today: Date, dayOfMonth: int)
    requires ValidDate(today) && 1 <= dayOfMonth
    ensures DayNumber(today) < DayNumber(MakeDate(today.year, today.month, dayOfMonth))
  {
    var next := NextMonth(today.year, today.month);
    MakeDateNextMonth(today.year, today.month, dayOfMonth);
    NormalizeDayNumber(next.(day := dayOfMonth));
    LaterMonthLaterDay(today, next.year, next.month, dayOfMonth);
  }

  /** `t.reminderDays || 3` */
  function ReminderWindow(reminderDays: Option<int>): (w: int)
    ensures Truthy(reminderDays) ==> w == reminderDays.value
    ensures !Truthy(reminderDays) ==> w == DefaultReminderDays
  {
    if Truthy(reminderDays) then reminderDays.value else DefaultReminderDays
  }

  /** The reminder one recurring transaction gives today, if any. A date that
      does not parse gives none (its day of the month is `NaN`, and so is
      every comparison after it). */
  function ReminderFor(t: Transaction, today: Date, dismissed: seq<string>): (r: Option<Reminder>)
    requires ValidDate(today)
    ensures r.Some? ==> ParseYmd(t.date).Some?
    ensures r.Some? ==>
      var due := NextDue(today, ParseYmd(t.date).value.day);
      && r.value.id == t.id + "-" + IsoDate(due)
      && r.value.id !in dismissed
      && r.value.dueDate == IsoDate(due)
      && r.value.daysUntilDue == DaysUntil(today, due) <= ReminderWindow(t.reminderDays)
      && r.value.transactionId == t.id && r.value.amount == t.amount && r.value.category == t.category
      && r.value.title == (if t.description != "" then t.description else t.category)
    ensures r.None? && ParseYmd(t.date).Some? ==>
      var due := NextDue(today, ParseYmd(t.date).value.day);
      DaysUntil(today, due) > ReminderWindow(t.reminderDays) || t.id + "-" + IsoDate(due) in dismissed
  {
    match ParseYmd(t.date)
    case None => None
    case Some(made) =>
      var due := NextDue(today, made.day);
      var days := DaysUntil(today, due);
      var id := t.id + "-" + IsoDate(due);
      if days <= ReminderWindow(t.reminderDays) && id !in dismissed then
        Some(Reminder(id, t.id, if t.description != "" then t.description else t.category,
                      t.category, t.amount, IsoDate(due), days))
      else None
  }

  /** The reminders of the recurring transactions, in list order. */
  function Collect(ts: seq<Transaction>, today: Date, dismissed: seq<string>): (r: seq<Reminder>)
    requires ValidDate(today)
    ensures |r| <= |ts|
  {
    if ts == [] then []
    else
      var rest := Collect(ts[1..], today, dismissed);
      var here := ReminderFor(ts[0], today, dismissed);
      if ts[0].isRecurring && here.Some? then [here.value] + rest else rest
  }

  /** Every reminder comes from a recurring transaction of the list, and every
      recurring transaction with a reminder contributes it. */
  lemma {:induction false} CollectExactly(ts: seq<Transaction>, today: Date, dismissed: seq<string>)
    requires ValidDate(today)
    ensures forall x :: x in Collect(ts, today, dismissed) ==>
      exists t :: t in ts && t.isRecurring && ReminderFor(t, today, dismissed) == Some(x)
    ensures forall t :: t in ts && t.isRecurring && ReminderFor(t, today, dismissed).Some? ==>
      ReminderFor(t, today, dismissed).value in Collect(ts, today, dismissed)
  {
    if ts != [] {
      CollectExactly(ts[1..], today, dismissed);
      assert forall t :: t in ts[1..] ==> t in ts;
      assert forall t :: t in ts ==> t == ts[0] || t in ts[1..];
    }
  }

  function DaysKey(r: Reminder): real
  {
    r.daysUntilDue as real
  }

  /** The hook's `reminders`: the collected reminders, soonest first. */
  function Upcoming(ts: seq<Transaction>, today: Date, dismissed: seq<string>): (r: seq<Reminder>)
    requires ValidDate(today)
    ensures SortedBy(r, DaysKey)
    ensures multiset(r) == multiset(Collect(ts, today, dismissed))
  {
    SortBy(Collect(ts, today, dismissed), DaysKey)
  }

  /** No shown reminder is dismissed, and each is due after today and within
      its transaction's window. */
  lemma UpcomingBounds(ts: seq<Transaction>, today: Date, dismissed: seq<string>)
    requires ValidDate(today) && !(0 <= today.year <= 99)
    ensures forall x :: x in Upcoming(ts, today, dismissed) ==>
      x.id !in dismissed && 1 <= x.daysUntilDue
      && exists t :: t in ts && t.isRecurring && t.id == x.transactionId && x.daysUntilDue <= ReminderWindow(t.reminderDays)
  {
    var c := Collect(ts, today, dismissed);
    CollectExactly(ts, today, dismissed);
    forall x | x in Upcoming(ts, today, dismissed)
      ensures x.id !in dismissed && 1 <= x.daysUntilDue
      ensures exists t :: t in ts && t.isRecurring && t.id == x.transactionId && x.daysUntilDue <= ReminderWindow(t.reminderDays)
    {
      assert x in multiset(c);
      var t :| t in ts && t.isRecurring && ReminderFor(t, today, dismissed) == Some(x);
      var made := ParseYmd(t.date).value;
      NextDueAfterToday(today, made.day);
    }
  }

  /** The toast `showNotifications` raises for a reminder. */
  datatype Notice = DueToday | DueTomorrow | NoNotice

  function NoticeFor(r: Reminder): (n: Notice)
    ensures n == DueToday <==> r.daysUntilDue == 0
    ensures n == DueTomorrow <==> r.daysUntilDue != 0 && r.daysUntilDue <= 1
  {
    if r.daysUntilDue == 0 then DueToday
    else if r.daysUntilDue <= 1 then DueTomorrow
    else NoNotice
  }

  /** Since every reminder is due after today, the "due today" toast is never
      raised; a reminder due tomorrow raises the other one. */
  lemma NeverDueToday(ts: seq<Transaction>, today: Date, dismissed: seq<string>)
    requires ValidDate(today) && !(0 <= today.year <= 99)
    ensures forall x :: x in Upcoming(ts, today, dismissed) ==>
      NoticeFor(x) != DueToday && (NoticeFor(x) == DueTomorrow <==> x.daysUntilDue == 1)
  {
    UpcomingBounds(ts, today, dismissed);
  }

  /** The dismissed ids on mount: none when the key is missing or empty,
      otherwise the stored list. `None` when the text does not parse to a
      list: `JSON.parse` throws, or the value is not an array. */
  function LoadDismissed(store: map<string, Slot<string>>, parse: string -> Parsed<string>): (r: Option<seq<string>>)
    ensures DismissedKey !in store ==> r == Some([])
    ensures DismissedKey in store && store[DismissedKey].Written? ==> r == Some(store[DismissedKey].items)
    ensures DismissedKey in store && store[DismissedKey].Raw? && store[DismissedKey].text != "" ==>
      r == if parse(store[DismissedKey].text).ArrayOf? then Some(parse(store[DismissedKey].text).items) else None
  {
    if DismissedKey !in store || store[DismissedKey] == Raw("") then Some([])
    else
      match ParseSlot(store[DismissedKey], parse)
      case ArrayOf(items) => Some(items)
      case _ => None
  }

  /** The dismissed ids as the hook holds them and `localStorage`. */
  class ReminderBoard {
    var dismissed: seq<string>
    var store: map<string, Slot<string>>

    /** The list is what `localStorage` holds under the key. */
    predicate Persisted()
      reads this
    {
      DismissedKey in store && store[DismissedKey] == Written(dismissed)
    }

    /** Mounting the hook: the loaded list, written back at once. */
    constructor (store0: map<string, Slot<string>>, parse: string -> Parsed<string>)
      requires LoadDismissed(store0, parse).Some?
      ensures dismissed == LoadDismissed(store0, parse).value
      ensures store == store0[DismissedKey := Written(dismissed)]
      ensures Persisted()
    {
      dismissed := LoadDismissed(store0, parse).value;
      store := store0[DismissedKey := Written(LoadDismissed(store0, parse).value)];
    }

    /** The reminders shown for the given transactions today. */
    function Shown(ts: seq<Transaction>, today: Date): seq<Reminder>
      requires ValidDate(today)
      reads this
    {
      Upcoming(ts, today, dismissed)
    }

    /** `dismissReminder(id)`: the id joins the list, which is written back. */
    method Dismiss(id: string)
      modifies this
      ensures dismissed == old(dismissed) + [id]
      ensures store == old(store)[DismissedKey := Written(dismissed)] && Persisted()
    {
      dismissed := dismissed + [id];
      store := store[DismissedKey := Written(dismissed)];
    }
  }

  /** A dismissed reminder is no longer shown, and it stays hidden through a
      reload of the page. */
  lemma DismissHides(ts: seq<Transaction>, today: Date, dismissed: seq<string>, x: Reminder,
                     store: map<string, Slot<string>>, parse: string -> Parsed<string>)
    requires ValidDate(today) && !(0 <= today.year <= 99)
    requires store == map[DismissedKey := Written(dismissed + [x.id])]
    ensures x !in Upcoming(ts, today, dismissed + [x.id])
    ensures LoadDismissed(store, parse) == Some(dismissed + [x.id])
  {
    UpcomingBounds(ts, today, dismissed + [x.id]);
  }
}
