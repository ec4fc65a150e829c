/** Recurring transactions: templates that carry the date of their next
    occurrence, the date stepping that moves that date on by a week or a
    month, the catch-up run that turns every missed occurrence into a
    transaction, and the list of templates kept in `localStorage`. */
module Recurring {
  import opened Common
  import opened Text
  import opened Calendar
  import opened ExpenseTypes
  import opened Storage

  datatype Cadence = Weekly | Monthly

  datatype Template = Template(
    id: string,
    kind: TxType,
    amount: int,
    category: string,
    subcategory: Option<string>,
    description: string,
    cadence: Cadence,
    nextRunDate: string,
    tags: Option<seq<string>>)

  // ---------------------------------------------------------------------------
  // dates

  /** `todayYMD()`: the local calendar date `today` as `${y}-${mm}-${dd}`. */
  function TodayYmd(today: Date): (s: string)
    requires ValidDate(today)
    ensures 1000 <= today.year <= 9999 ==> ParseYmd(s) == Some(today)
  {
    assert 1000 <= today.year <= 9999 ==> ParseYmd(LocalYmd(today)) == Some(today) by {
      if 1000 <= today.year <= 9999 {
        LocalYmdIsIso(today);
        ParsePrinted(today);
      }
    }
    LocalYmd(today)
  }

  /** `new Date(y, m, 0).getDate()` for the month `m` counted from 1: the
      number of days `new Date` finds in that month. */
  function LastDayLookup(y: int, m: int): int
  {
    MakeDate(ConstructorYear(y), m, 0).day
  }

  /** The date `n` months after `p`: `setMonth(getMonth() + n)` lets the
      day roll over, the last day of the month reached is then looked up,
      and `setDate(min(day, lastDay))` is applied to the rolled-over month. */
  function AddMonthsDate(p: Date, n: int): (r: Date)
    requires ValidDate(p)
    ensures ValidDate(r)
  {
    var rolled := SetMonth(p, p.month - 1 + n);
    SetDate(rolled, Min(p.day, LastDayLookup(rolled.year, rolled.month)))
  }

  function Min(a: int, b: int): int
  {
    if a <= b then a else b
  }

  /** `addWeeks(ymd, n)`; `None` where the string is not a date and
      `toISOString` throws. */
  function AddWeeks(ymd: string, n: int): (r: Option<string>)
    ensures r.Some? <==> ParseYmd(ymd).Some?
    ensures r.Some? ==> |r.value| == 10
  {
    match ParseYmd(ymd)
    case None => None
    case Some(p) => Some(IsoDate(AddDays(p, 7 * n)))
  }

  /** `addMonths(ymd, n)`; `None` where the string is not a date. */
  function AddMonths(ymd: string, n: int): (r: Option<string>)
    ensures r.Some? <==> ParseYmd(ymd).Some?
    ensures r.Some? ==> |r.value| == 10
  {
    match ParseYmd(ymd)
    case None => None
    case Some(p) => Some(IsoDate(AddMonthsDate(p, n)))
  }

  /** The step the run takes after each occurrence. */
  function Advance(cadence: Cadence, ymd: string): (r: Option<string>)
    ensures r.Some? <==> ParseYmd(ymd).Some?
  {
    if cadence == Weekly then AddWeeks(ymd, 1) else AddMonths(ymd, 1)
  }

  /** `addWeeks` lands exactly `7 * n` days later, across month and year
      ends; the result reads back as a date while it stays within years
      0..9999. */
  lemma AddWeeksExact(ymd: string, n: int)
    requires ParseYmd(ymd).Some?
    ensures var p, s := ParseYmd(ymd).value, AddWeeks(ymd, n).value;
      DaysBeforeYear(0) <= DayNumber(p) + 7 * n < DaysBeforeYear(10000) ==>
        ParseYmd(s).Some? && DayNumber(ParseYmd(s).value) == DayNumber(p) + 7 * n
  {
    var p := ParseYmd(ymd).value;
    var q := AddDays(p, 7 * n);
    AddDaysNumber(p, 7 * n);
    if DaysBeforeYear(0) <= DayNumber(p) + 7 * n < DaysBeforeYear(10000) {
      YearInRange(q);
      ParsePrinted(q);
    }
  }

  /** The target month of `addMonths(p, n)`: month index `p.month - 1 + n`
      of `p.year`, carried into the year. */
  function TargetMonth(p: Date, n: int): (r: Date)
    ensures ValidDate(r) && r.day == 1
    ensures r.year * 12 + r.month == p.year * 12 + p.month + n
  {
    Date(p.year + (p.month - 1 + n) / 12, (p.month - 1 + n) % 12 + 1, 1)
  }

  lemma ConstructorYearLeap(y: int)
    requires y != 0
    ensures IsLeap(ConstructorYear(y)) == IsLeap(y)
  {
  }

  /** `addMonths` keeps the day of the month. When the target month is too
      short for it, the day is not clamped: the result is that same day in
      the month after (31 January + 1 month = 31 March). The lookup of the
      month's last day reads years 0..99 as 1900..1999, so the target year 0
      is excluded (see `AddMonthsYearZero`). */
  lemma AddMonthsKeepsDay(p: Date, n: int)
    requires ValidDate(p) && TargetMonth(p, n).year != 0
    ensures var t := TargetMonth(p, n);
      AddMonthsDate(p, n) ==
        if p.day <= DaysInMonth(t.year, t.month) then t.(day := p.day)
        else NextMonth(t.year, t.month).(day := p.day)
  {
    var t := TargetMonth(p, n);
    var rolled := SetMonth(p, p.month - 1 + n);
    SetMonthTarget(p, n);
    var r := if p.day <= DaysInMonth(t.year, t.month) then t.(day := p.day)
      else NextMonth(t.year, t.month).(day := p.day);
    if p.day <= DaysInMonth(t.year, t.month) {
      NormalizeValid(t.(day := p.day));
    } else {
      RollsIntoNextMonth(t, p.day);
    }
    ClampKeepsDay(p, n, r);
  }

  /** `setMonth` rolls the original day over from the target month. */
  lemma SetMonthTarget(p: Date, n: int)
    requires ValidDate(p)
    ensures SetMonth(p, p.month - 1 + n) == NormalizeDay(TargetMonth(p, n).(day := p.day))
  {
  }

  /** A day past the end of month `t` lands in the next month, which has 31
      days and so holds the day itself. */
  lemma RollsIntoNextMonth(t: Date, day: int)
    requires ValidDate(t) && DaysInMonth(t.year, t.month) < day <= 31
    ensures var r := NextMonth(t.year, t.month);
      && NormalizeDay(t.(day := day)) == r.(day := day - DaysInMonth(t.year, t.month))
      && r.year == t.year && DaysInMonth(r.year, r.month) == 31
  {
    NormalizeOver(t.(day := day));
  }

  /** Once the rolled-over date lies in the month of `r`, and `r` holds the
      original day, the clamp restores that day. */
  lemma ClampKeepsDay(p: Date, n: int, r: Date)
    requires ValidDate(p) && ValidDate(r) && r.day == p.day && r.year != 0
    requires var rolled := SetMonth(p, p.month - 1 + n);
      rolled.year == r.year && rolled.month == r.month
    ensures AddMonthsDate(p, n) == r
  {
    var rolled := SetMonth(p, p.month - 1 + n);
    var k := Min(p.day, LastDayLookup(rolled.year, rolled.month));
    assert AddMonthsDate(p, n) == SetDate(rolled, k);
    MonthEnd(r.year, r.month);
    assert k == r.day;
    SetDateSameMonth(rolled, r, r.day);
    SetDateKeeps(r);
  }

  /** `setDate` looks only at the year and the month of the date. */
  lemma SetDateSameMonth(a: Date, b: Date, k: int)
    requires 1 <= a.month <= 12 && a.year == b.year && a.month == b.month
    ensures SetDate(a, k) == SetDate(b, k)
  {
  }

  /** Setting a valid date's own day changes nothing. */
  lemma SetDateKeeps(d: Date)
    requires ValidDate(d)
    ensures SetDate(d, d.day) == d
  {
    SetDateInMonth(d, d.day);
    NormalizeValid(d);
  }

  /** The last day `new Date(y, m, 0)` finds for month `m` of year `y`,
      for every year but 0 (years 1..99 are read as 1900..1999, which have
      the same leap years). */
  lemma MonthEnd(y: int, m: int)
    requires 1 <= m <= 12 && y != 0
    ensures LastDayLookup(y, m) == DaysInMonth(y, m)
  {
    ConstructorYearLeap(y);
    LastDayOf(ConstructorYear(y), m);
  }

  /** `setDate(k)` is day `k` of the month, carried over month ends as
      needed. */
  lemma SetDateInMonth(d: Date, k: int)
    requires 1 <= d.month <= 12
    ensures SetDate(d, k) == NormalizeDay(d.(day := k))
  {
    assert (d.month - 1) / 12 == 0 && (d.month - 1) % 12 == d.month - 1;
  }

  /** In year 0 the month-end lookup consults 1900, which is not a leap
      year: 29 January 0 + 1 month gives 28 February 0. */
  lemma AddMonthsYearZero()
    ensures AddMonthsDate(Date(0, 1, 29), 1) == Date(0, 2, 28)
  {
    var rolled := Date(0, 2, 29);
    NormalizeValid(rolled);
    assert SetMonth(Date(0, 1, 29), 1) == rolled;
    LastDayOf(1900, 2);
    assert LastDayLookup(0, 2) == 28;
    SetDateInMonth(rolled, 28);
    NormalizeValid(Date(0, 2, 28));
  }

  /** `addMonths(p, n)` with `n >= 1` moves strictly later. */
  lemma AddMonthsLater(p: Date, n: int)
    requires ValidDate(p) && n >= 1
    ensures DayNumber(AddMonthsDate(p, n)) > DayNumber(p)
  {
    AddMonthsLaterMonth(p, n);
    DayNumberOrder(p, AddMonthsDate(p, n));
  }

  /** ... and lands at least `n` months on. */
  lemma AddMonthsLaterMonth(p: Date, n: int)
    requires ValidDate(p)
    ensures var q := AddMonthsDate(p, n);
      q.year * 12 + q.month >= p.year * 12 + p.month + n
  {
    var rolled := SetMonth(p, p.month - 1 + n);
    RolledMonthAtLeast(p, n);
    var k := Min(p.day, LastDayLookup(rolled.year, rolled.month));
    var x := Date(rolled.year, rolled.month, k);
    SetDateInMonth(rolled, k);
    assert AddMonthsDate(p, n) == NormalizeDay(x);
    NormalizeForward(x);
  }

  /** `setMonth(getMonth() + n)` lands `n` months on or, when the day
      overflows, further. */
  lemma RolledMonthAtLeast(p: Date, n: int)
    requires ValidDate(p)
    ensures var r := SetMonth(p, p.month - 1 + n);
      r.year * 12 + r.month >= p.year * 12 + p.month + n
  {
    var t := TargetMonth(p, n);
    SetMonthTarget(p, n);
    NormalizeForward(t.(day := p.day));
  }

  /** A string that is stepped on successfully, and whose successor is a
      date again, is followed by a strictly later string. */
  lemma AdvanceIncreases(cadence: Cadence, s: string)
    requires Advance(cadence, s).Some? && ParseYmd(Advance(cadence, s).value).Some?
    ensures LexLt(s, Advance(cadence, s).value)
  {
    var p := ParseYmd(s).value;
    var q := if cadence == Weekly then AddDays(p, 7) else AddMonthsDate(p, 1);
    if cadence == Monthly {
      AddMonthsLater(p, 1);
    } else {
      AddDaysNumber(p, 7);
    }
    assert Advance(cadence, s).value == IsoDate(q);
    if !(0 <= q.year <= 9999) {
      ExpandedYearDoesNotParse(q);
    }
    IsoDateOrder(p, q);
    PrintParsed(s);
  }

  // ---------------------------------------------------------------------------
  // the catch-up run, as a specification

  /** How a template's `nextRunDate` moves on: `Advance` in the application;
      the shape of the run does not depend on it. */
  type Step = (Cadence, string) -> Option<string>

  /** The transaction a template produces for its current `nextRunDate`. */
  function Occurrence(t: Template): (d: Draft)
    ensures d.date == t.nextRunDate && d.isRecurring
    ensures d.amount == t.amount && d.kind == t.kind && d.category == t.category
    ensures d.subcategory == t.subcategory && d.description == t.description
    ensures d.tags == if t.tags.Some? then t.tags.value else []
  {
    Draft(t.amount, t.kind, t.category, t.subcategory, t.description, t.nextRunDate, true, GetOr(t.tags, []))
  }

  /** What the inner loop does to one template: the transactions it hands to
      the sink and the template it leaves, or the transactions handed over
      before the date step threw. */
  datatype CatchUpResult =
    | CaughtUp(emitted: seq<Draft>, template: Template)
    | Threw(emitted: seq<Draft>)

  /** `while (t.nextRunDate <= now && guard < 12) { emit; step; guard++ }` */
  function CatchUp(step: Step, t: Template, now: string, guard: nat): CatchUpResult
    requires guard <= 12
    decreases 12 - guard
  {
    if LexLe(t.nextRunDate, now) && guard < 12 then
      match step(t.cadence, t.nextRunDate)
      case None => Threw([Occurrence(t)])
      case Some(next) => PrependOne(Occurrence(t), CatchUp(step, t.(nextRunDate := next), now, guard + 1))
    else
      CaughtUp([], t)
  }

  function PrependOne(d: Draft, r: CatchUpResult): CatchUpResult
  {
    PrependCatchUp([d], r)
  }

  function PrependCatchUp(e: seq<Draft>, r: CatchUpResult): CatchUpResult
  {
    match r
    case CaughtUp(e2, t) => CaughtUp(e + e2, t)
    case Threw(e2) => Threw(e + e2)
  }

  /** At most `12 - guard` transactions per template and run. */
  lemma {:induction false} CatchUpBound(step: Step, t: Template, now: string, guard: nat)
    requires guard <= 12
    ensures |CatchUp(step, t, now, guard).emitted| <= 12 - guard
    decreases 12 - guard
  {
    if LexLe(t.nextRunDate, now) && guard < 12 {
      var next := step(t.cadence, t.nextRunDate);
      if next.Some? {
        CatchUpBound(step, t.(nextRunDate := next.value), now, guard + 1);
      }
    }
  }

  /** When the loop ends normally, the template is no longer due or the
      guard has run out: exactly `12 - guard` transactions were emitted. */
  lemma {:induction false} CatchUpExit(step: Step, t: Template, now: string, guard: nat)
    requires guard <= 12
    requires CatchUp(step, t, now, guard).CaughtUp?
    ensures var r := CatchUp(step, t, now, guard);
      LexLt(now, r.template.nextRunDate) || |r.emitted| == 12 - guard
    decreases 12 - guard
  {
    if LexLe(t.nextRunDate, now) && guard < 12 {
      var next := step(t.cadence, t.nextRunDate);
      if next.Some? {
        CatchUpExit(step, t.(nextRunDate := next.value), now, guard + 1);
      }
    } else if guard < 12 {
      LexTrichotomy(t.nextRunDate, now);
    }
  }

  /** The first emitted transaction is the template's own occurrence, and
      it is emitted only when the template is due. */
  lemma CatchUpFirst(step: Step, t: Template, now: string, guard: nat)
    requires guard <= 12 && CatchUp(step, t, now, guard).emitted != []
    ensures CatchUp(step, t, now, guard).emitted[0] == Occurrence(t)
    ensures LexLe(t.nextRunDate, now)
  {
  }

  /** Emitted transaction `k` is the template's occurrence at the date it
      had then, and that date is due (`date <= now`). */
  lemma {:induction false} CatchUpAt(step: Step, t: Template, now: string, guard: nat, k: nat)
    requires guard <= 12 && k < |CatchUp(step, t, now, guard).emitted|
    ensures var d := CatchUp(step, t, now, guard).emitted[k];
      d == Occurrence(t.(nextRunDate := d.date)) && LexLe(d.date, now)
    decreases k
  {
    CatchUpFirst(step, t, now, guard);
    if k > 0 {
      var t' := t.(nextRunDate := step(t.cadence, t.nextRunDate).value);
      CatchUpAt(step, t', now, guard + 1, k - 1);
      assert CatchUp(step, t, now, guard).emitted[k] == CatchUp(step, t', now, guard + 1).emitted[k - 1];
    }
  }

  /** Emitted date `k + 1` is one step after emitted date `k`. */
  lemma {:induction false} CatchUpStepAt(step: Step, t: Template, now: string, guard: nat, k: nat)
    requires guard <= 12 && k + 1 < |CatchUp(step, t, now, guard).emitted|
    ensures var e := CatchUp(step, t, now, guard).emitted;
      step(t.cadence, e[k].date) == Some(e[k + 1].date)
    decreases k
  {
    CatchUpFirst(step, t, now, guard);
    var t' := t.(nextRunDate := step(t.cadence, t.nextRunDate).value);
    var e, rest := CatchUp(step, t, now, guard).emitted, CatchUp(step, t', now, guard + 1).emitted;
    assert e[k] == if k == 0 then Occurrence(t) else rest[k - 1];
    assert e[k + 1] == rest[k];
    if k == 0 {
      CatchUpFirst(step, t', now, guard + 1);
    } else {
      CatchUpStepAt(step, t', now, guard + 1, k - 1);
    }
  }

  /** All emitted transactions at once: occurrences of the template, each
      due, the first at the original `nextRunDate`. */
  lemma CatchUpOccurrences(step: Step, t: Template, now: string, guard: nat)
    requires guard <= 12
    ensures var e := CatchUp(step, t, now, guard).emitted;
      && (forall k :: 0 <= k < |e| ==> e[k] == Occurrence(t.(nextRunDate := e[k].date)) && LexLe(e[k].date, now))
      && (e != [] ==> e[0].date == t.nextRunDate)
  {
    var e := CatchUp(step, t, now, guard).emitted;
    forall k | 0 <= k < |e|
      ensures e[k] == Occurrence(t.(nextRunDate := e[k].date)) && LexLe(e[k].date, now)
    {
      CatchUpAt(step, t, now, guard, k);
    }
    if e != [] {
      CatchUpFirst(step, t, now, guard);
    }
  }

  /** Each emitted date is one step after the one before. */
  lemma CatchUpSteps(step: Step, t: Template, now: string, guard: nat)
    requires guard <= 12
    ensures var e := CatchUp(step, t, now, guard).emitted;
      forall k :: 0 <= k < |e| - 1 ==> step(t.cadence, e[k].date) == Some(e[k + 1].date)
  {
    var e := CatchUp(step, t, now, guard).emitted;
    forall k | 0 <= k < |e| - 1 ensures step(t.cadence, e[k].date) == Some(e[k + 1].date) {
      CatchUpStepAt(step, t, now, guard, k);
    }
  }

  /** The template a completed catch-up leaves differs from the one that went
      in only in `nextRunDate`, which is one step after the last emitted
      date, or unchanged when nothing was emitted. */
  lemma {:induction false} CatchUpLeaves(step: Step, t: Template, now: string, guard: nat)
    requires guard <= 12
    ensures var r := CatchUp(step, t, now, guard);
      r.CaughtUp? ==>
        && r.template == t.(nextRunDate := r.template.nextRunDate)
        && (r.emitted == [] ==> r.template == t)
        && (r.emitted != [] ==> step(t.cadence, r.emitted[|r.emitted| - 1].date) == Some(r.template.nextRunDate))
    decreases 12 - guard
  {
    if LexLe(t.nextRunDate, now) && guard < 12 {
      var next := step(t.cadence, t.nextRunDate);
      if next.Some? {
        var t' := t.(nextRunDate := next.value);
        CatchUpLeaves(step, t', now, guard + 1);
        var rest := CatchUp(step, t', now, guard + 1);
        if rest.CaughtUp? && rest.emitted == [] {
          assert rest.template == t';
        }
      }
    }
  }

  /** The dates a completed catch-up emits strictly increase. */
  lemma CatchUpIncreasing(t: Template, now: string, guard: nat)
    requires guard <= 12 && CatchUp(Advance, t, now, guard).CaughtUp?
    ensures var e := CatchUp(Advance, t, now, guard).emitted;
      forall k :: 0 <= k < |e| - 1 ==> LexLt(e[k].date, e[k + 1].date)
  {
    var e := CatchUp(Advance, t, now, guard).emitted;
    forall k | 0 <= k < |e| - 1 ensures LexLt(e[k].date, e[k + 1].date) {
      CatchUpNeighbours(t, now, guard, k);
    }
  }

  lemma CatchUpNeighbours(t: Template, now: string, guard: nat, k: nat)
    requires guard <= 12 && CatchUp(Advance, t, now, guard).CaughtUp?
    requires k + 1 < |CatchUp(Advance, t, now, guard).emitted|
    ensures var e := CatchUp(Advance, t, now, guard).emitted;
      LexLt(e[k].date, e[k + 1].date)
  {
    var r := CatchUp(Advance, t, now, guard);
    var a, b := r.emitted[k].date, r.emitted[k + 1].date;
    CatchUpStepAt(Advance, t, now, guard, k);
    assert Advance(t.cadence, a) == Some(b);
    if k + 2 < |r.emitted| {
      CatchUpStepAt(Advance, t, now, guard, k + 1);
    } else {
      CatchUpLeaves(Advance, t, now, guard);
    }
    assert Advance(t.cadence, b).Some?;
    AdvanceIncreases(t.cadence, a);
  }

  /** Strict increase between any two of them, not only neighbours. */
  lemma CatchUpOrdered(t: Template, now: string, i: nat, j: nat)
    requires CatchUp(Advance, t, now, 0).CaughtUp?
    requires i < j < |CatchUp(Advance, t, now, 0).emitted|
    ensures LexLt(CatchUp(Advance, t, now, 0).emitted[i].date, CatchUp(Advance, t, now, 0).emitted[j].date)
  {
    CatchUpIncreasing(t, now, 0);
    DatesChain(CatchUp(Advance, t, now, 0).emitted, i, j);
  }

  /** Dates that increase from each draft to the next increase between any two. */
  lemma {:induction false} DatesChain(e: seq<Draft>, i: nat, j: nat)
    requires forall k :: 0 <= k < |e| - 1 ==> LexLt(e[k].date, e[k + 1].date)
    requires i < j < |e|
    ensures LexLt(e[i].date, e[j].date)
    decreases j - i
  {
    if i + 1 < j {
      DatesChain(e, i + 1, j);
      LexLtTransitive(e[i].date, e[i + 1].date, e[j].date);
    }
  }

  /** A template that is not due is left exactly as it was. */
  lemma NotDueUntouched(step: Step, t: Template, now: string)
    requires !LexLe(t.nextRunDate, now)
    ensures CatchUp(step, t, now, 0) == CaughtUp([], t)
  {
  }

  /** The whole run over a template list: the transactions handed to the sink
      and the updated list, or the transactions handed over before a step threw. */
  datatype RunResult = Ran(emitted: seq<Draft>, updated: seq<Template>) | RunThrew(emitted: seq<Draft>)

  function RunAll(step: Step, ts: seq<Template>, now: string): RunResult
  {
    if ts == [] then Ran([], [])
    else
      match CatchUp(step, ts[0], now, 0)
      case Threw(e) => RunThrew(e)
      case CaughtUp(e, t) => PrependRun(e, [t], RunAll(step, ts[1..], now))
  }

  function PrependRun(e: seq<Draft>, u: seq<Template>, r: RunResult): RunResult
  {
    match r
    case Ran(e2, u2) => Ran(e + e2, u + u2)
    case RunThrew(e2) => RunThrew(e + e2)
  }

  /** The updated list has the input's length and order: entry `i` is what the
      catch-up of template `i` left, so only `nextRunDate` can differ. At most
      12 transactions are created per template. */
  lemma {:induction false} RunAllUpdated(step: Step, ts: seq<Template>, now: string)
    requires RunAll(step, ts, now).Ran?
    ensures var r := RunAll(step, ts, now);
      && |r.updated| == |ts|
      && |r.emitted| <= 12 * |ts|
      && forall i :: 0 <= i < |ts| ==>
           CatchUp(step, ts[i], now, 0).CaughtUp? && r.updated[i] == CatchUp(step, ts[i], now, 0).template
  {
    if ts != [] {
      var r, c, rest := RunAll(step, ts, now), CatchUp(step, ts[0], now, 0), RunAll(step, ts[1..], now);
      assert c.CaughtUp? && r == PrependRun(c.emitted, [c.template], rest);
      assert rest.Ran?;
      RunAllUpdated(step, ts[1..], now);
      CatchUpBound(step, ts[0], now, 0);
      assert r.updated == [c.template] + rest.updated;
      assert |r.emitted| == |c.emitted| + |rest.emitted|;
      forall i | 0 <= i < |ts|
        ensures CatchUp(step, ts[i], now, 0).CaughtUp? && r.updated[i] == CatchUp(step, ts[i], now, 0).template
      {
        if i > 0 {
          var j := i - 1;
          assert ts[i] == ts[1..][j];
          assert CatchUp(step, ts[1..][j], now, 0).CaughtUp? && rest.updated[j] == CatchUp(step, ts[1..][j], now, 0).template;
          assert r.updated[i] == rest.updated[j];
        }
      }
    }
  }

  /** Only the date changes: every updated template equals its original
      apart from `nextRunDate`, and a template that was not due is unchanged. */
  lemma RunAllOnlyDatesChange(step: Step, ts: seq<Template>, now: string)
    requires RunAll(step, ts, now).Ran?
    ensures var u := RunAll(step, ts, now).updated;
      && |u| == |ts|
      && (forall i :: 0 <= i < |ts| ==> u[i] == ts[i].(nextRunDate := u[i].nextRunDate))
      && (forall i :: 0 <= i < |ts| && !LexLe(ts[i].nextRunDate, now) ==> u[i] == ts[i])
  {
    RunAllUpdated(step, ts, now);
    forall i | 0 <= i < |ts| ensures RunAll(step, ts, now).updated[i] == ts[i].(nextRunDate := RunAll(step, ts, now).updated[i].nextRunDate) {
      CatchUpLeaves(step, ts[i], now, 0);
    }
  }

  lemma RunAllStep(step: Step, ts: seq<Template>, now: string, i: nat)
    requires i < |ts|
    ensures RunAll(step, ts[i..], now) ==
      match CatchUp(step, ts[i], now, 0)
      case Threw(e) => RunThrew(e)
      case CaughtUp(e, t) => PrependRun(e, [t], RunAll(step, ts[i + 1..], now))
  {
    assert ts[i..][0] == ts[i] && ts[i..][1..] == ts[i + 1..];
  }

  // ---------------------------------------------------------------------------
  // the catch-up run, as the source performs it

  /** The `addTransaction` callback: records every transaction handed to it. */
  class TransactionSink {
    var log: seq<Draft>

    constructor ()
      ensures log == []
    {
      log := [];
    }

    method Add(d: Draft)
      modifies this
      ensures log == old(log) + [d]
    {
      log := log + [d];
    }
  }

  /** `{ created, updated }`, or the exception a date step raised. */
  datatype Outcome = Done(created: nat, updated: seq<Template>) | Failed

  /** What the caller of the run sees: the count of created transactions and
      the updated list, or the exception. */
  function OutcomeOf(r: RunResult): Outcome
  {
    match r
    case Ran(e, u) => Done(|e|, u)
    case RunThrew(_) => Failed
  }

  predicate SignedIn(userId: Option<string>)
  {
    userId.Some? && userId.value != ""
  }

  /** `processRecurringDue`: without a signed-in user nothing happens;
      otherwise every template is copied, caught up one after the other
      against today's date, and the copies are returned. */
  method ProcessRecurringDue(userId: Option<string>, templates: seq<Template>, today: Date, sink: TransactionSink)
    returns (out: Outcome)
    requires ValidDate(today)
    modifies sink
    ensures !SignedIn(userId) ==> out == Done(0, templates) && sink.log == old(sink.log)
    ensures SignedIn(userId) ==>
      var r := RunAll(Advance, templates, TodayYmd(today));
      out == OutcomeOf(r) && sink.log == old(sink.log) + r.emitted
  {
    if !SignedIn(userId) {
      return Done(0, templates);
    }
    out := CatchUpAll(Advance, templates, TodayYmd(today), sink);
  }

  /** The signed-in part of `processRecurringDue`: every template is copied
      and caught up against `now`, one after the other, `step` giving the
      next run date (`Advance`). */
  method CatchUpAll(step: Step, templates: seq<Template>, now: string, sink: TransactionSink)
    returns (out: Outcome)
    modifies sink
    ensures var r := RunAll(step, templates, now);
      out == OutcomeOf(r) && sink.log == old(sink.log) + r.emitted
  {
    var created := 0;
    var updated := new Template[|templates|](i requires 0 <= i < |templates| => templates[i]);
    ghost var log0 := sink.log;
    ghost var emitted: seq<Draft> := [];
    RunFromStart(step, templates, now);
    for i := 0 to updated.Length
      invariant updated[i..] == templates[i..]
      invariant sink.log == log0 + emitted
      invariant created == |emitted|
      invariant RunFrom(step, templates, now, i, emitted, updated[..i]) == RunAll(step, templates, now)
    {
      ghost var done := updated[..i];
      assert updated[i] == templates[i];
      var ok, t;
      ghost var inner;
      ok, t, created, inner := CatchUpTemplate(step, updated[i], now, sink, created);
      AppendAssoc(log0, emitted, inner);
      if !ok {
        return Failed;
      }
      updated[i] := t;
      emitted := emitted + inner;
      assert updated[..i + 1] == done + [t];
    }
    assert updated[..] == updated[..updated.Length];
    return Done(created, updated[..]);
  }

  /** The inner loop of `processRecurringDue` on the template `t` (the
      copy held in `updated[i]`): emits its occurrences while it is due and
      the guard allows, stepping `nextRunDate` on after each; `ok` is false
      when a step threw. */
  method CatchUpTemplate(step: Step, t0: Template, now: string, sink: TransactionSink, created: nat)
    returns (ok: bool, t: Template, created': nat, ghost inner: seq<Draft>)
    modifies sink
    ensures sink.log == old(sink.log) + inner && created' == created + |inner|
    ensures CatchUp(step, t0, now, 0) == if ok then CaughtUp(inner, t) else Threw(inner)
  {
    t := t0;
    inner := [];
    created' := created;
    var guard := 0;
    CatchUpFromStart(step, t0, now);
    while LexLe(t.nextRunDate, now) && guard < 12
      invariant 0 <= guard <= 12
      invariant sink.log == old(sink.log) + inner
      invariant created' == created + |inner|
      invariant CatchUpFrom(step, t, now, guard, inner) == CatchUp(step, t0, now, 0)
    {
      var next := step(t.cadence, t.nextRunDate);
      sink.Add(Occurrence(t));
      created' := created' + 1;
      inner := inner + [Occurrence(t)];
      if next.None? {
        return false, t, created', inner;
      }
      t := t.(nextRunDate := next.value);
      guard := guard + 1;
    }
    return true, t, created', inner;
  }

  /** The inner loop's own reading of `CatchUp`: `acc` holds what has been
      emitted so far. */
  ghost function CatchUpFrom(step: Step, t: Template, now: string, guard: nat, acc: seq<Draft>): CatchUpResult
    requires guard <= 12
    decreases 12 - guard
  {
    if LexLe(t.nextRunDate, now) && guard < 12 then
      match step(t.cadence, t.nextRunDate)
      case None => Threw(acc + [Occurrence(t)])
      case Some(next) => CatchUpFrom(step, t.(nextRunDate := next), now, guard + 1, acc + [Occurrence(t)])
    else
      CaughtUp(acc, t)
  }

  /** Carrying the emitted transactions along is the same as prepending
      them afterwards. */
  lemma {:induction false} CatchUpFromPrepend(step: Step, t: Template, now: string, guard: nat, acc: seq<Draft>)
    requires guard <= 12
    ensures CatchUpFrom(step, t, now, guard, acc) == PrependCatchUp(acc, CatchUp(step, t, now, guard))
    decreases 12 - guard
  {
    if LexLe(t.nextRunDate, now) && guard < 12 {
      var next := step(t.cadence, t.nextRunDate);
      if next.Some? {
        var t' := t.(nextRunDate := next.value);
        CatchUpFromPrepend(step, t', now, guard + 1, acc + [Occurrence(t)]);
        PrependCatchUpAssoc(acc, [Occurrence(t)], CatchUp(step, t', now, guard + 1));
      }
    } else {
      assert acc + [] == acc;
    }
  }

  lemma CatchUpFromStart(step: Step, t: Template, now: string)
    ensures CatchUpFrom(step, t, now, 0, []) == CatchUp(step, t, now, 0)
  {
    CatchUpFromPrepend(step, t, now, 0, []);
    var r := CatchUp(step, t, now, 0);
    assert [] + r.emitted == r.emitted;
  }

  lemma PrependCatchUpAssoc(a: seq<Draft>, b: seq<Draft>, r: CatchUpResult)
    ensures PrependCatchUp(a, PrependCatchUp(b, r)) == PrependCatchUp(a + b, r)
  {
    match r
    case CaughtUp(e, t) => assert a + (b + e) == (a + b) + e;
    case Threw(e) => assert a + (b + e) == (a + b) + e;
  }

  lemma PrependRunAssoc(a: seq<Draft>, u: seq<Template>, b: seq<Draft>, v: seq<Template>, r: RunResult)
    ensures PrependRun(a, u, PrependRun(b, v, r)) == PrependRun(a + b, u + v, r)
  {
    match r
    case Ran(e, w) => assert a + (b + e) == (a + b) + e && u + (v + w) == (u + v) + w;
    case RunThrew(e) => assert a + (b + e) == (a + b) + e;
  }

  lemma AppendAssoc<T>(a: seq<T>, b: seq<T>, c: seq<T>)
    ensures a + b + c == a + (b + c)
  {
  }

  /** Template `i` caught up: the run so far takes in its occurrences and
      its updated copy. */
  /** The outer loop's own reading of `RunAll`: templates before `i` are
      done, having emitted `emitted` and become `done`. */
  ghost function RunFrom(step: Step, ts: seq<Template>, now: string, i: nat, emitted: seq<Draft>, done: seq<Template>): RunResult
    requires i <= |ts|
    decreases |ts| - i
  {
    if i == |ts| then Ran(emitted, done)
    else
      match CatchUp(step, ts[i], now, 0)
      case Threw(e) => RunThrew(emitted + e)
      case CaughtUp(e, t) => RunFrom(step, ts, now, i + 1, emitted + e, done + [t])
  }

  /** Carrying the finished templates along is the same as prepending them
      to the run of the rest. */
  lemma {:induction false} RunFromPrepend(step: Step, ts: seq<Template>, now: string, i: nat, emitted: seq<Draft>, done: seq<Template>)
    requires i <= |ts|
    ensures RunFrom(step, ts, now, i, emitted, done) == PrependRun(emitted, done, RunAll(step, ts[i..], now))
    decreases |ts| - i
  {
    if i == |ts| {
      assert ts[i..] == [];
      assert emitted + [] == emitted && done + [] == done;
    } else {
      RunAllStep(step, ts, now, i);
      match CatchUp(step, ts[i], now, 0)
      case Threw(e) =>
      case CaughtUp(e, t) =>
        RunFromPrepend(step, ts, now, i + 1, emitted + e, done + [t]);
        PrependRunAssoc(emitted, done, e, [t], RunAll(step, ts[i + 1..], now));
    }
  }

  lemma RunFromStart(step: Step, ts: seq<Template>, now: string)
    ensures RunFrom(step, ts, now, 0, [], []) == RunAll(step, ts, now)
  {
    RunFromPrepend(step, ts, now, 0, [], []);
    assert ts[0..] == ts;
    match RunAll(step, ts, now)
    case Ran(e, u) => assert [] + e == e && [] + u == u;
    case RunThrew(e) => assert [] + e == e;
  }

  // ---------------------------------------------------------------------------
  // the template list

  /** `siaflow.recurring.v1.${userId || "anon"}` */
  function StorageKey(userId: Option<string>): string
  {
    "siaflow.recurring.v1." + OwnerName(userId)
  }

  function OwnerName(userId: Option<string>): string
  {
    if SignedIn(userId) then userId.value else "anon"
  }

  /** Two users share a storage key exactly when they have the same owner
      name (a missing or empty id, and the id "anon", all map to "anon"). */
  lemma StorageKeyInjective(a: Option<string>, b: Option<string>)
    ensures StorageKey(a) == StorageKey(b) <==> OwnerName(a) == OwnerName(b)
  {
    var p := "siaflow.recurring.v1.";
    if StorageKey(a) == StorageKey(b) {
      assert OwnerName(a) == StorageKey(a)[|p|..];
      assert OwnerName(b) == StorageKey(b)[|p|..];
    }
  }

  /** `loadRecurringTemplates`: missing or empty text, text that does not
      parse, and a parsed value that is not an array all give `[]`. */
  function LoadTemplates(store: map<string, Slot<Template>>, userId: Option<string>, parse: string -> Parsed<Template>): (r: seq<Template>)
    ensures r != [] ==>
      var key := StorageKey(userId);
      key in store && store[key] != Raw("") && ParseSlot(store[key], parse) == ArrayOf(r)
    ensures var key := StorageKey(userId);
      key in store && store[key] != Raw("") && ParseSlot(store[key], parse).ArrayOf? ==>
        r == ParseSlot(store[key], parse).items
  {
    var key := StorageKey(userId);
    if key !in store || store[key] == Raw("") then []
    else match ParseSlot(store[key], parse)
      case ArrayOf(items) => items
      case _ => []
  }

  /** What `saveRecurringTemplates` leaves in storage. */
  function SaveTemplates(store: map<string, Slot<Template>>, userId: Option<string>, list: seq<Template>): map<string, Slot<Template>>
  {
    store[StorageKey(userId) := Written(list)]
  }

  /** Loading after saving gives the saved list back, for any parser. */
  lemma LoadAfterSave(store: map<string, Slot<Template>>, userId: Option<string>, list: seq<Template>, parse: string -> Parsed<Template>)
    ensures LoadTemplates(SaveTemplates(store, userId, list), userId, parse) == list
  {
  }

  /** `remove(id)` */
  function RemoveTemplate(list: seq<Template>, id: string): (r: seq<Template>)
  {
    Filter(list, (t: Template) => t.id != id)
  }

  /** Removal deletes every template with that id and keeps the others, in
      order and with their multiplicity. */
  lemma RemoveTemplateSpec(list: seq<Template>, id: string)
    ensures forall t :: t in RemoveTemplate(list, id) ==> t.id != id
    ensures forall t: Template :: t.id != id ==> multiset(RemoveTemplate(list, id))[t] == multiset(list)[t]
    ensures (forall i :: 0 <= i < |list| ==> list[i].id != id) ==> RemoveTemplate(list, id) == list
  {
    FilterMultiset(list, (t: Template) => t.id != id);
    if forall i :: 0 <= i < |list| ==> list[i].id != id {
      FilterAll(list, (t: Template) => t.id != id);
    }
  }

  datatype SaveError = InvalidAmount | MissingCategory

  datatype SaveResult = Rejected(error: SaveError) | Saved(list: seq<Template>)

  /** `templates.findIndex(t => t.id === id)` */
  /** `save()`: the amount must be positive and the category non-empty; a
      template with a new id goes to the front, one with a known id replaces
      the first template with that id. */
  function SaveTemplate(list: seq<Template>, editing: Template): (r: SaveResult)
  {
    if editing.amount <= 0 then Rejected(InvalidAmount)
    else if editing.category == "" then Rejected(MissingCategory)
    else
      var idx := FindIndex(list, (t: Template) => t.id == editing.id);
      if idx == -1 then Saved([editing] + list) else Saved(list[idx := editing])
  }

  lemma SaveTemplateSpec(list: seq<Template>, editing: Template)
    ensures SaveTemplate(list, editing).Rejected? <==> editing.amount <= 0 || editing.category == ""
    ensures SaveTemplate(list, editing).Saved? ==>
      var r := SaveTemplate(list, editing).list;
      if forall k :: 0 <= k < |list| ==> list[k].id != editing.id then
        r == [editing] + list
      else
        exists i :: 0 <= i < |list| && list[i].id == editing.id
          && (forall k :: 0 <= k < i ==> list[k].id != editing.id)
          && |r| == |list| && r[i] == editing
          && (forall k :: 0 <= k < |list| && k != i ==> r[k] == list[k])
  {
    var idx := FindIndex(list, (t: Template) => t.id == editing.id);
    if SaveTemplate(list, editing).Saved? && idx != -1 {
      assert list[idx].id == editing.id;
    }
  }

  /** The blank template `createNew()` opens: an expense of amount 0 in the
      first category (or "سایر"), monthly from today, without tags. */
  function NewTemplate(id: string, categoryNames: seq<string>, today: Date): (t: Template)
    requires ValidDate(today)
    ensures t.amount == 0 && t.kind == Expense && t.cadence == Monthly && t.tags == Some([])
    ensures t.category != ""
  {
    Template(id, Expense, 0,
      if |categoryNames| > 0 && categoryNames[0] != "" then categoryNames[0] else "سایر",
      None, "", Monthly, TodayYmd(today), Some([]))
  }

  /** A freshly created template cannot be saved before an amount is entered. */
  lemma NewTemplateNeedsAmount(list: seq<Template>, id: string, categoryNames: seq<string>, today: Date)
    requires ValidDate(today)
    ensures SaveTemplate(list, NewTemplate(id, categoryNames, today)) == Rejected(InvalidAmount)
  {
  }

  /** The recurring-transactions screen: the template list of one user and
      the storage it is persisted to. */
  class RecurringManager {
    var userId: Option<string>
    var templates: seq<Template>
    var store: map<string, Slot<Template>>

    constructor (userId: Option<string>, store: map<string, Slot<Template>>, parse: string -> Parsed<Template>)
      ensures this.userId == userId && this.store == store
      ensures templates == LoadTemplates(store, userId, parse)
    {
      this.userId := userId;
      this.store := store;
      templates := LoadTemplates(store, userId, parse);
    }

    /** `persist(next)` */
    method Persist(next: seq<Template>)
      modifies this
      ensures templates == next && store == SaveTemplates(old(store), userId, next)
      ensures userId == old(userId)
    {
      templates := next;
      store := SaveTemplates(store, userId, next);
    }

    method Remove(id: string)
      modifies this
      ensures templates == RemoveTemplate(old(templates), id)
      ensures store == SaveTemplates(old(store), userId, templates) && userId == old(userId)
    {
      Persist(RemoveTemplate(templates, id));
    }

    method Save(editing: Template) returns (error: Option<SaveError>)
      modifies this
      ensures match SaveTemplate(old(templates), editing)
        case Rejected(e) => error == Some(e) && templates == old(templates) && store == old(store)
        case Saved(list) => error == None && templates == list && store == SaveTemplates(old(store), userId, list)
      ensures userId == old(userId)
    {
      match SaveTemplate(templates, editing)
      case Rejected(e) =>
        error := Some(e);
      case Saved(list) =>
        Persist(list);
        error := None;
    }

    /** `runNow()`: the run's updated list is persisted when it completes; when
        a step throws, the error is reported and nothing is persisted. */
    method RunNow(today: Date, sink: TransactionSink) returns (out: Outcome)
      requires ValidDate(today)
      modifies this, sink
      ensures out.Done? ==> templates == out.updated && store == SaveTemplates(old(store), userId, out.updated)
      ensures out.Failed? ==> templates == old(templates) && store == old(store)
      ensures !SignedIn(userId) ==> out == Done(0, old(templates)) && sink.log == old(sink.log)
      ensures SignedIn(userId) ==>
        var r := RunAll(Advance, old(templates), TodayYmd(today));
        out == OutcomeOf(r) && sink.log == old(sink.log) + r.emitted
      ensures userId == old(userId)
    {
      out := ProcessRecurringDue(userId, templates, today, sink);
      if out.Done? {
        Persist(out.updated);
      }
    }
  }
}
