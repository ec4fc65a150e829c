# A verified model of the personal-finance app's logic

The application keeps a household's transactions, categories, budgets,
saving goals, debts, reminders and recurring templates, and draws reports
from them. Most of it is React rendering over a hosted backend. This project
models the logic under that rendering in Dafny, and proves what that logic
promises.

**Recurring transactions (`Recurring`, `Calendar`)**
- `addWeeks` and `addMonths` work on `YYYY-MM-DD` strings, following JavaScript `Date` roll-over.
- The catch-up run emits every missed occurrence, oldest first, into a sink, with at most twelve per template.
- The template list is loaded from storage, saved with an upsert, and removed by id.

**Hook state (`DataHooks`, `Debts`, `SavingGoals`, `Reminders`, `Widgets`)**
- Each hook's local list effects are a class holding the list: prepend, replace by id, delete by id.
- Also modelled: payment clamping, deposit and withdrawal floors, goal milestones, the due-reminder window and dismissal, and the widget toggle and reorder.

**Forms and validators**
- The add-transaction form and the category form (`AddTransaction`, `CategoryManagement`).
- The tag input (`TagInput`).
- The swipeable row (`Swipe`).
- The password and e-mail rules (`Auth`, `PasswordChange`).
- The thousands-separator amount formatter (`Amounts`).
- The record normalisation of a backup import (`BackupRestore`).

**Search and reports**
- The filter, sort and group pipelines (`AdvancedSearch`, `ReportingFilters`, `TransactionsList`).
- The report folds (`ReportStatistics`, `MonthlySummary`, `MonthlyAnalysis`, `BudgetStatusCard`, `TrendChart`, `SubcategoryChart`, `SmartInsights`).

**Shared modules**
- `Common` holds sequences, sums and sorting.
- `Text` holds strings, trimming, splitting and number parsing.
- `ExpenseTypes` holds the transaction, category and widget types and the built-in defaults.
- `Storage` abstracts `localStorage` and `JSON.parse`.

The model has the source's own form:
- Pure computations are functions, with lemmas about them.
- Loops that accumulate over a list are methods with loop invariants, proved against those functions.
- Straight-line guards (the `errors.push` checks of the password rules) and single `sort` calls stay functions.
- Objects whose state changes are classes whose methods state the new state.

**Where a comment and the code differ.**
- `addMonths` carries a `// clamp day` comment (src/components/RecurringManager.tsx:45), but it calls `setMonth` first (line 44).
- By the time it measures the month's length, the date has already rolled over, so the clamp never shortens the day.
- So 31 January + 1 month is 31 March. `Recurring.AddMonthsKeepsDay` states this.

**Shared default objects.** `moveWidget` copies the array (`[...prev]`) but not its objects, and writes `order` into them (src/hooks/useDashboardWidgets.ts:35-41).
- When the state is `defaultWidgets` itself (on mount without a stored list, or after `resetWidgets`), those writes change the module's default objects.
- So after reset, move `balance` down, reset, the dashboard shows `spending-chart` first. `Widgets.ResetMoveReset` states this.
- The model gives each widget object an identity, so that the writes reach `defaultWidgets` exactly where the source's do.

**Dead branch.** The "due today" reminder branch is unreachable.
- It needs a due date equal to today.
- Due dates are always computed strictly after today.
- `Reminders.NeverDueToday` proves this.

## Model

| member | source | states |
|---|---|---|
| AddTransaction.RecordNamesOffered | src/components/AddTransactionModal.tsx:44-47 | each subcategory record of the first category with a name is offered by its name |
| AddTransaction.CategoryChoices | src/components/AddTransactionModal.tsx:93-94 | a category is offered for an expense exactly when it has a budget, and for an income exactly when it has none |
| AddTransaction.ChoicesPartition | src/components/AddTransactionModal.tsx:93-94 | every category is offered for exactly one of the two types: the two lists together are the categories, counting repeats |
| AddTransaction.Clicked | src/components/AddTransactionModal.tsx:249 | clicking the selected subcategory deselects it; clicking any other selects it |
| AddTransaction.ClickTwice | src/components/AddTransactionModal.tsx:249 | two clicks on the same subcategory leave it selected exactly when it was selected before |
| AddTransaction.EntryOf | src/components/AddTransactionModal.tsx:52-62 | the entry carries the amount with its commas removed as read by `parseInt`, the subcategory only when one is chosen, no tags, and the other fields as entered |
| AddTransaction.TypedAmountParses | src/components/AddTransactionModal.tsx:55 | an amount typed into the field and formatted, once it holds a digit, reaches the entry as the number its digits denote |
| AddTransaction.FormatEmptyIfNoDigits | src/components/AddTransactionModal.tsx:72-75 | text without a digit formats to the empty amount |
| AddTransaction.AddTransactionForm.constructor | src/components/AddTransactionModal.tsx:28-34 | a fresh dialog is an expense dated today with every other field empty and the recurring switch off |
| AddTransaction.AddTransactionForm.SetKind | src/components/AddTransactionModal.tsx:136-157 | switching the type clears the category and the subcategory and keeps the other fields |
| AddTransaction.AddTransactionForm.TypeAmount | src/components/AddTransactionModal.tsx:182 | typing stores the formatted amount and keeps the other fields |
| AddTransaction.AddTransactionForm.PickQuickAmount | src/components/AddTransactionModal.tsx:84-89 | a quick-amount button stores its value and keeps the other fields |
| AddTransaction.AddTransactionForm.ChangeCategory | src/components/AddTransactionModal.tsx:78-81 | choosing a category clears the subcategory and keeps the other fields |
| AddTransaction.AddTransactionForm.ClickSubcategory | src/components/AddTransactionModal.tsx:249 | the subcategory toggles as `Clicked` says and the other fields stay |
| AddTransaction.AddTransactionForm.SetDescription | src/components/AddTransactionModal.tsx:273 | only the description changes |
| AddTransaction.AddTransactionForm.SetDate | src/components/AddTransactionModal.tsx:287 | only the date changes |
| AddTransaction.AddTransactionForm.SetRecurring | src/components/AddTransactionModal.tsx:313 | only the recurring switch changes |
| AddTransaction.AddTransactionForm.Submit | src/components/AddTransactionModal.tsx:50-70 | with the button enabled the entry built from the fields goes to `onAdd`; then amount, category, subcategory, description and the switch are reset while the type and the date stay |
| AdvancedSearch.Search | src/components/AdvancedSearch.tsx:61-123 | the result is ordered by the chosen sort option and is a permutation of the transactions that pass every filter |
| AdvancedSearch.SearchExactly | src/components/AdvancedSearch.tsx:62-104 | a transaction is in the result exactly when it is in the list and passes every filter, and a passing one occurs as often as in the list |
| AdvancedSearch.DateOrder | src/components/AdvancedSearch.tsx:107-112 | under a date order, any two well-formed `YYYY-MM-DD` dates of the result are in text order, descending or ascending as chosen |
| AdvancedSearch.ClearedKeepsNonNegative | src/components/AdvancedSearch.tsx:139-150 | with every filter cleared a transaction is kept exactly when it matches the query and its amount is not negative |
| AdvancedSearch.ActiveFiltersCount | src/components/AdvancedSearch.tsx:152-161 | the count is at most eight and is zero exactly when the category, type, both dates, tags, both amounts and the recurring switch all have their cleared values |
| AdvancedSearch.NoActiveFilters | src/components/AdvancedSearch.tsx:139-161 | clearing leaves no active filter, and with no active filter the search keeps what the query finds among the non-negative amounts |
| AdvancedSearch.AllTags | src/components/AdvancedSearch.tsx:52-58 | the tag list has no repeats and holds exactly the tags some transaction carries |
| AdvancedSearch.TagsOfSpec | src/components/AdvancedSearch.tsx:54-56 | the tags collected across the transactions are exactly the tags some transaction carries |
| Amounts.StripCommas | src/components/AddTransactionModal.tsx:55 | removing the commas leaves no comma |
| Amounts.StripCommasDigits | src/components/AddTransactionModal.tsx:73 | a string of digits has no comma to remove |
| Amounts.GroupThousandsGrouped | src/components/AddTransactionModal.tsx:74 | grouping digits gives the thousands shape: it starts with a digit, every comma is followed by exactly three digits and then a comma or the end, and no four digits are adjacent |
| Amounts.GroupThousandsDigits | src/components/AddTransactionModal.tsx:74 | grouping only inserts commas: removing them gives the digits back |
| Amounts.StripCommasJoin | src/components/AddTransactionModal.tsx:74 | removing the commas from a grouped prefix, a comma and a block of digits is removing them from the prefix and appending the block |
| Amounts.StripCommasComma | src/components/AddTransactionModal.tsx:74 | a trailing comma disappears when the commas are removed |
| Amounts.GroupedSnoc | src/components/AddTransactionModal.tsx:74 | a grouped amount followed by a comma and three digits keeps the thousands shape |
| Amounts.DigitsOnly | src/components/AddTransactionModal.tsx:73 | text whose characters are all digits is a digit string |
| Amounts.DigitsOf | src/components/AddTransactionModal.tsx:73 | what is kept of the typed text is digits only |
| Amounts.FormatAmountSpec | src/components/AddTransactionModal.tsx:72-75 | the formatted amount holds only digits and commas, removing the commas gives the typed digits in order, and formatting it again changes nothing |
| Amounts.DigitPrefix | src/components/AddTransactionModal.tsx:55 | the longest run of digits at the start of the text: a prefix of digits, followed by a non-digit or the end |
| Amounts.ParseInt | src/components/AdvancedSearch.tsx:88-89 | `parseInt` gives `NaN` exactly when no digit follows the leading white space and an optional sign |
| Amounts.SignlessBody | src/components/AdvancedSearch.tsx:88-89 | the text after an optional leading `+` or `-`, or the text itself |
| Amounts.ParseDigits | src/components/AddTransactionModal.tsx:55 | a non-empty digit string reads as the number it denotes |
| Amounts.DigitPrefixAll | src/components/AddTransactionModal.tsx:55 | a digit string is its own leading run of digits |
| Amounts.ParseFormatted | src/components/AddTransactionModal.tsx:55 | a formatted amount, commas removed, reads back as the number its typed digits denote, and as `NaN` when none was typed |
| Amounts.ParseIntToString | src/components/CategoryManagement.tsx:136 | a budget shown as text by `toString()` reads back as the same number, commas removed or not |
| Amounts.ParseNegative | src/components/CategoryManagement.tsx:136 | a minus sign before digits reads, commas removed, as the negated number |
| Amounts.ParseSigned | src/components/CategoryManagement.tsx:162 | `parseInt` of a minus sign before digits is the negated number |
| Amounts.MinusBody | src/components/CategoryManagement.tsx:162 | after a leading minus the digits remain |
| Amounts.NoLeadingSpace | src/components/CategoryManagement.tsx:162 | text that starts with no white space is not trimmed |
| Amounts.NoCommaInNegative | src/components/CategoryManagement.tsx:162 | a minus sign before digits has no comma to remove |
| Auth.UnmetRules | src/pages/Auth.tsx:40-46 | a rule is reported exactly when the password fails it: fewer than eight characters, no `A`-`Z`, no `a`-`z`, no `0`-`9` |
| Auth.UnmetRulesInOrder | src/pages/Auth.tsx:42-45 | the unmet rules come in the order they are tested, each at most once |
| Auth.MessagesDiffer | src/pages/Auth.tsx:42-45 | different rules have different messages |
| Auth.Messages | src/pages/Auth.tsx:42-45 | one message per unmet rule, in the same order |
| Auth.PasswordErrors | src/pages/Auth.tsx:40-46 | no message exactly when the password meets all four rules, and never more than four |
| Auth.ErrorReported | src/pages/Auth.tsx:40-46 | a rule's message is in the list exactly when the password fails that rule |
| Auth.EmailCheck | src/pages/Auth.tsx:56-57 | the check on the first `@` accepts exactly the addresses the pattern `^[^\s@]+@[^\s@]+\.[^\s@]+$` matches |
| Auth.CheckedMatches | src/pages/Auth.tsx:56-57 | an address the check accepts matches the pattern |
| Auth.PiecesOfDomain | src/pages/Auth.tsx:56 | a domain the check accepts splits at an inner dot into two runs without white space or `@` |
| Auth.MatchedPasses | src/pages/Auth.tsx:56-57 | an address the pattern matches passes the check |
| Auth.SliceParts | src/pages/Auth.tsx:56 | the parts of a suffix around one of its positions are the corresponding parts of the whole text |
| Auth.DomainOfPieces | src/pages/Auth.tsx:56 | two runs without white space or `@` joined by a dot make an accepted domain |
| Auth.ShownPasswordErrors | src/pages/Auth.tsx:49 | the password rules apply only when signing up; signing in shows none |
| Auth.SubmitStep | src/pages/Auth.tsx:52-91 | a malformed e-mail is rejected first; signing in then calls the backend; signing up rejects a weak password with the joined messages, then a blank name, and only then calls the backend |
| Auth.BackendCalledOnlyWhenValid | src/pages/Auth.tsx:52-91 | the backend is called only with an e-mail the pattern matches, and a sign-up happens exactly when signing up with a good e-mail, a password meeting all four rules and a non-blank name |
| Auth.ErrorMessage | src/pages/Auth.tsx:67-72 | a sign-in error mentioning invalid credentials, and a sign-up error mentioning an existing registration, get their fixed messages; any other error is shown after the mode's prefix |
| BackupRestore.Field | src/components/BackupRestore.tsx:76-79 | `v?.key` is defined exactly when the value is an object holding the key |
| BackupRestore.ArrayOr | src/components/BackupRestore.tsx:76-79 | an array gives its items; anything else, missing included, gives the empty list |
| BackupRestore.NumberOf | src/components/BackupRestore.tsx:117 | `Number(v)`: a number is itself, text is read as `NumberOfText` reads it, an array through its `String` form, and an object is `NaN` |
| BackupRestore.NumberOfText | src/components/BackupRestore.tsx:117 | blank text is 0; text that gives a number is decimal digits with at most one leading sign, after trimming |
| BackupRestore.NumberOfSignedDigits | src/components/BackupRestore.tsx:117 | decimal digits, bare or after a `-` or `+`, give their value with that sign |
| BackupRestore.NumberOfIntToString | src/components/BackupRestore.tsx:117 | the decimal text of any integer reads back as that integer |
| BackupRestore.NumberOfArrays | src/components/BackupRestore.tsx:117 | an empty array and `[null]` are 0, a one-number array is that number, and a one-string array reads as the string does |
| BackupRestore.SignedTextAmount | src/components/BackupRestore.tsx:117 | a stored amount `"-" + digits` is the negative of those digits' value |
| BackupRestore.TextOr | src/components/BackupRestore.tsx:89-90 | a falsy value gives the fallback; a truthy one gives its text |
| BackupRestore.OptionalText | src/components/BackupRestore.tsx:103 | the text is present exactly when the value is truthy, and is then the value's text |
| BackupRestore.AmountOr0 | src/components/BackupRestore.tsx:117 | a falsy value reads as 0; a truthy one as its number |
| BackupRestore.KindOf | src/components/BackupRestore.tsx:88 | the record is an income exactly when its type is the text `income`; anything else is an expense |
| BackupRestore.CategoryStep | src/components/BackupRestore.tsx:84-95 | a category record is added exactly when its name is truthy, with its name, type, icon and colour (or their defaults), its subcategories when they are an array, and a budget exactly when it is a number |
| BackupRestore.TransactionStep | src/components/BackupRestore.tsx:97-110 | a transaction record is added exactly when its amount is a number and its type, category and date are truthy; the date is cut to at most ten characters and the other fields are normalised as the import says |
| BackupRestore.GoalStep | src/components/BackupRestore.tsx:112-122 | a goal record is added exactly when its name is truthy and its target is a number, with the current amount defaulting to 0 |
| BackupRestore.DebtStep | src/components/BackupRestore.tsx:124-137 | a debt record is added exactly when its name is truthy and its total is a number, the paid amount defaulting to 0 and both timestamps the time of the import |
| BackupRestore.Collected | src/components/BackupRestore.tsx:84-137 | a loop makes at most one call per record |
| BackupRestore.CollectedCounts | src/components/BackupRestore.tsx:84-137 | a loop makes one call per record that passes its check, and every call comes from such a record |
| BackupRestore.ImportOf | src/components/BackupRestore.tsx:70-141 | the import fails exactly when the file does not parse |
| BackupRestore.CollectedStages | src/components/BackupRestore.tsx:84-137 | every call a loop makes is of the loop's own kind |
| BackupRestore.ImportCounts | src/components/BackupRestore.tsx:82-139 | each counter in the success message is the number of records of its section that passed the check, and there is one call per counted record |
| BackupRestore.ImportOrder | src/components/BackupRestore.tsx:81-137 | every category call comes before every transaction call, which come before every goal call, which come before every debt call |
| BackupRestore.StagesInOrder | src/components/BackupRestore.tsx:81 | calls of the four kinds joined in import order are ordered by kind |
| BackupRestore.ImportSection | src/components/BackupRestore.tsx:84-95 | one loop hands each record that passes its check to the callback, in order, and counts exactly those |
| BackupRestore.ImportJSON | src/components/BackupRestore.tsx:70-145 | the import makes the calls and reports the counts `ImportOf` describes, and fails when the file does not parse |
| BackupRestore.ExportPayload | src/components/BackupRestore.tsx:37-46 | the backup is format version 1, stamped with the time of export, and holds the four lists unchanged |
| BackupRestore.TagsJson | src/components/BackupRestore.tsx:49 | each tag is written as a JSON string, in order |
| BackupRestore.TransactionRoundTrip | src/components/BackupRestore.tsx:97-110 | an exported transaction, imported again, is added exactly when its category and date are not empty, and then with the same amount, type, category, description, recurring flag and tags, its date cut to ten characters and an empty subcategory dropped |
| BackupRestore.TransactionFields | src/components/BackupRestore.tsx:49 | the exported transaction holds each field under its name |
| BudgetStatus.Weekday | src/components/BudgetStatusCard.tsx:27 | `getDay()` is a weekday number from 0 (Sunday) to 6 (Saturday) |
| BudgetStatus.WeekdayOfNumber | src/components/BudgetStatusCard.tsx:27 | the weekday of any day number lies in 0..6 |
| BudgetStatus.WeekdayAnchor | src/components/BudgetStatusCard.tsx:27 | the weekday count agrees with the calendar: 1 January 2024 was a Monday |
| BudgetStatus.WeekOffsetRange | src/components/BudgetStatusCard.tsx:28 | the days since the last Saturday lie in 0..6, and stepping back by them always lands on a Saturday |
| BudgetStatus.SixDaysOn | src/components/BudgetStatusCard.tsx:33 | six days after a Saturday is a Friday |
| BudgetStatus.SetDateNumber | src/components/BudgetStatusCard.tsx:30 | `setDate` with any day, in range or not, moves the date by the difference in days |
| BudgetStatus.StepBackToSaturday | src/components/BudgetStatusCard.tsx:27-30 | stepping back from today by its offset lands on the Saturday of the week that contains today |
| BudgetStatus.WeekPeriod | src/components/BudgetStatusCard.tsx:25-34 | the week runs from a Saturday to the day six days later and contains today |
| BudgetStatus.MonthPeriod | src/components/BudgetStatusCard.tsx:35-39 | the month period runs from the first to the last day of today's month |
| BudgetStatus.WeekEndsOnFriday | src/components/BudgetStatusCard.tsx:32-33 | the last day of a week period is a Friday |
| BudgetStatus.IsoDateLe | src/components/BudgetStatusCard.tsx:61-62 | for years 0 to 9999, comparing `YYYY-MM-DD` texts compares the dates |
| BudgetStatus.InPeriodExactly | src/components/BudgetStatusCard.tsx:56-63 | a transaction with a readable date counts towards a category exactly when it is an expense of that category dated from the first to the last day of the period, both included |
| BudgetStatus.WeeklyBudgetIsAQuarter | src/components/BudgetStatusCard.tsx:54 | a week gets a quarter of a positive budget, rounded to the nearest whole amount, and only a budget of 1 rounds to nothing |
| BudgetStatus.RowConsistent | src/components/BudgetStatusCard.tsx:54-79 | a row's share never passes 100, nothing negative is left, over budget means spent above the budget, what is left and what was spent make up the budget while within it, and near the limit means 80 to 100 percent of a positive budget |
| BudgetStatus.NearLimitBand | src/components/BudgetStatusCard.tsx:66-69 | with a positive budget, a share of at least 80 without being over is exactly spending from 80 to 100 percent of the budget |
| BudgetStatus.RowsFor | src/components/BudgetStatusCard.tsx:53-80 | one row per category, in order, each that category's own figures |
| BudgetStatus.BudgetDataOrdered | src/components/BudgetStatusCard.tsx:51-81 | exactly one row for each category with a positive budget, each holding that category's own figures, ordered by share used, largest first |
| BudgetStatus.CountsDisjoint | src/components/BudgetStatusCard.tsx:84-85 | when no row is both near the limit and over it, the two counts together never exceed the number of rows |
| BudgetStatus.CardCounts | src/components/BudgetStatusCard.tsx:84-85 | the card never counts a category as both over budget and near its limit |
| BudgetStatus.AmberIsNearLimit | src/components/BudgetStatusCard.tsx:91-96 | in a row, the amber bar is shown exactly when the category is near its limit |
| Calendar.DaysInMonth | src/components/RecurringManager.tsx:46 | every month has 28 to 31 days and only February has fewer than 30 (the `new Date(y, m + 1, 0).getDate()` lookup) |
| Calendar.DaysBeforeNextYear | src/components/RecurringManager.tsx:37 | consecutive years' day counts differ by that year's length (leap rule of the Gregorian calendar) |
| Calendar.LeapCount | src/components/RecurringManager.tsx:37 | a year's length is 365 plus the divisible-by-4 day, minus the century day, plus the 400-year day |
| Calendar.DaysBeforeYearMonotonic | src/components/RecurringManager.tsx:37 | later years start at least 365 days per year later |
| Calendar.DaysBeforeNextMonth | src/components/RecurringManager.tsx:37 | consecutive months' start days differ by the month's length, and December ends the year |
| Calendar.DaysBeforeMonthMonotonic | src/components/RecurringManager.tsx:37 | a later month starts after the earlier month ends |
| Calendar.NormalizeDay | src/components/RecurringManager.tsx:37 | the rollover of an out-of-range day (as `setDate` does) always yields a valid date |
| Calendar.NormalizeDayNumber | src/components/RecurringManager.tsx:37 | rolling a day over keeps the day it denotes (its day number) |
| Calendar.RollBackNumber | src/components/RecurringManager.tsx:37 | moving a day into the previous month keeps its day number |
| Calendar.RollForwardNumber | src/components/RecurringManager.tsx:37 | moving a day into the next month keeps its day number |
| Calendar.MakeDate | src/components/RecurringManager.tsx:46 | `new Date(y, monthIndex, d)` / `MakeDay` always yields a valid date, with month overflow carried into the year |
| Calendar.SetMonth | src/components/RecurringManager.tsx:44 | `setMonth` always yields a valid date |
| Calendar.SetDate | src/components/RecurringManager.tsx:47 | `setDate` always yields a valid date |
| Calendar.DayNumberBounds | src/components/RecurringManager.tsx:37 | a valid date's day number lies inside its year and inside its month |
| Calendar.DayNumberOrder | src/components/RecurringManager.tsx:85 | on valid dates the day number orders dates exactly as the calendar does, and equal numbers mean equal dates |
| Calendar.AddDays | src/components/RecurringManager.tsx:37 | `setDate(getDate() + n)` yields a valid date |
| Calendar.AddDaysNumber | src/components/RecurringManager.tsx:37 | adding `n` days moves the day number by exactly `n` |
| Calendar.IsoYear | src/components/RecurringManager.tsx:38 | `toISOString` prints at least four year characters (a sign and six digits outside 0..9999) |
| Calendar.IsoDate | src/components/RecurringManager.tsx:38 | `toISOString().slice(0, 10)` is ten characters long |
| Calendar.ParseYmd | src/components/RecurringManager.tsx:36 | `new Date(ymd + "T00:00:00")` accepts only valid dates with four-digit years |
| Calendar.DigitsBound4 | src/components/RecurringManager.tsx:36 | four digits denote at most 9999 |
| Calendar.Pad2Order | src/components/RecurringManager.tsx:30-31 | two-digit padding orders strings exactly as it orders numbers |
| Calendar.Pad4Halves | src/components/RecurringManager.tsx:38 | four padded digits are the padded hundreds followed by the padded units |
| Calendar.Pad4Order | src/components/RecurringManager.tsx:38 | four-digit padding orders strings exactly as it orders numbers |
| Calendar.Pad2RoundTrip | src/components/RecurringManager.tsx:36 | padding the value of two digits gives the digits back |
| Calendar.Pad4RoundTrip | src/components/RecurringManager.tsx:36 | padding the value of four digits gives the digits back |
| Calendar.IsoDateShape | src/components/RecurringManager.tsx:38 | a date with a four-digit year prints as `YYYY-MM-DD`, fields zero-padded |
| Calendar.ParsePrinted | src/components/RecurringManager.tsx:36-38 | printing and parsing back gives the same date |
| Calendar.YmdFields | src/components/RecurringManager.tsx:32 | in `YYYY-MM-DD` the dashes sit at 4 and 7 and the fields are where expected |
| Calendar.MonthPrefixFields | src/components/MonthlyAnalysis.tsx:34 | `toISOString().slice(0, 7)` is the padded year, a dash and the padded month |
| Calendar.SameMonthPrefix | src/components/MonthlyAnalysis.tsx:34-36 | two dates with four-digit years share their `YYYY-MM` exactly when they are in the same month of the same year |
| Calendar.PrintParsed | src/components/RecurringManager.tsx:36-38 | a string that parses prints back to itself |
| Calendar.YmdJoin | src/components/RecurringManager.tsx:32 | a `DDDD-DD-DD` string is its three fields joined by dashes |
| Calendar.IsoDateOrder | src/components/RecurringManager.tsx:85 | for four-digit years, string order of the printed dates (`t.nextRunDate <= now`) is date order |
| Calendar.LocalYmdIsIso | src/components/RecurringManager.tsx:27-33 | from year 1000 to 9999 `todayYMD`'s unpadded year gives the same text as the ISO form |
| Calendar.YearInRange | src/components/RecurringManager.tsx:38 | day numbers from 1 January 0 to 31 December 9999 belong to four-digit years |
| Calendar.ExpandedYearDoesNotParse | src/components/RecurringManager.tsx:36-38 | a year outside 0..9999 prints with a sign, which does not parse back |
| Calendar.NormalizeValid | src/components/RecurringManager.tsx:47 | a date inside its month is left alone by the rollover |
| Calendar.NormalizeForward | src/components/RecurringManager.tsx:44 | rolling a positive day over never lands in an earlier month |
| Calendar.NextMonth | src/components/RecurringManager.tsx:46 | the first of the following month is a valid date |
| Calendar.NormalizeOver | src/components/RecurringManager.tsx:44 | a day at most one month past the end of its month rolls into the next month only |
| Calendar.LastDayOf | src/components/RecurringManager.tsx:46 | day 0 of the next month index is the last day of the month |
| Calendar.MakeDateInMonth | src/components/RecurringManager.tsx:46 | `new Date(y, m - 1, d)` is day `d` of month `m`, rolled over |
| Calendar.MakeDateNextMonth | src/components/RecurringManager.tsx:46 | month index `m` is the month after month `m` counted from 1 |
| Calendar.LaterMonthLaterDay | src/components/RecurringManager.tsx:85 | a day of a later month lies after every day of an earlier month |
| CategoryManagement.TrimAll | src/components/CategoryManagement.tsx:154 | each piece trimmed, in order |
| CategoryManagement.ParseSubcategories | src/components/CategoryManagement.tsx:152-155 | every parsed subcategory name is non-empty and holds neither separator |
| CategoryManagement.TrimAllFree | src/components/CategoryManagement.tsx:153-154 | trimming keeps pieces free of separators |
| CategoryManagement.TrimFree | src/components/CategoryManagement.tsx:154 | trimming keeps a piece free of separators |
| CategoryManagement.SubcategoriesRoundTrip | src/components/CategoryManagement.tsx:138-155 | names without separators or surrounding white space, joined as the edit form shows them and parsed as a submit reads them, come back unchanged |
| CategoryManagement.EmptyTextNoNames | src/components/CategoryManagement.tsx:152-155 | empty text gives no subcategories |
| CategoryManagement.Padded | src/components/CategoryManagement.tsx:140 | the pieces of the joined text: the first name after the leading text, every later one after the separator's space |
| CategoryManagement.PiecesOfJoin | src/components/CategoryManagement.tsx:140-154 | joined names, after leading white space, split and trim back to the names |
| CategoryManagement.SplitJoin | src/components/CategoryManagement.tsx:140-153 | splitting the joined names at the separators gives one piece per name, each after its leading text |
| CategoryManagement.TrimPadded | src/components/CategoryManagement.tsx:154 | trimming each piece gives back the names |
| CategoryManagement.JoinStep | src/components/CategoryManagement.tsx:140 | joined names are the first name, the Arabic comma, a space and the rest joined |
| CategoryManagement.FreeConcat | src/components/CategoryManagement.tsx:153 | two texts free of separators make one free of separators |
| CategoryManagement.EditForm | src/components/CategoryManagement.tsx:131-142 | the edit form shows the category's name, icon and colour, its budget as text (empty without one), the expense type exactly when the budget is truthy, and its subcategory names joined with the Arabic comma |
| CategoryManagement.Submitted | src/components/CategoryManagement.tsx:144-174 | a blank name is rejected; otherwise the category has the trimmed name, the form's icon, colour and type, the parsed subcategories, no budget for an income or an empty budget field, and the edited category's id when it has one, a fresh id otherwise; it is added when nothing was being edited and edited otherwise |
| CategoryManagement.EditRoundTrip | src/components/CategoryManagement.tsx:131-174 | opening a category for editing and submitting at once hands back the same id, icon, colour, budget when truthy, subcategories and spent amount (0 when it had none); only the name is trimmed and the type follows the budget |
| CategoryManagement.ListsPartition | src/components/CategoryManagement.tsx:193-194 | every category is on exactly one of the expense and income lists, and the two lists together are the categories, counting repeats |
| CategoryManagement.Toggled | src/components/CategoryManagement.tsx:106-114 | the id is expanded afterwards exactly when it was not before; every other id keeps its state |
| CategoryManagement.CategoryManager.constructor | src/components/CategoryManagement.tsx:95-104 | the manager starts with a blank form, the dialog closed, nothing expanded and nothing chosen for deletion |
| CategoryManagement.CategoryManager.ToggleExpanded | src/components/CategoryManagement.tsx:106-114 | the expanded set becomes the toggled set and nothing else changes |
| CategoryManagement.CategoryManager.OpenAddModal | src/components/CategoryManagement.tsx:126-129 | the form is reset and the dialog opens |
| CategoryManagement.CategoryManager.OpenEditModal | src/components/CategoryManagement.tsx:131-142 | the form shows the category and the dialog opens |
| CategoryManagement.CategoryManager.SetKind | src/components/CategoryManagement.tsx:499-511 | the expense and income buttons set the form's type and nothing else changes |
| CategoryManagement.CategoryManager.SetName | src/components/CategoryManagement.tsx:529 | the name field holds the text as typed and nothing else changes |
| CategoryManagement.CategoryManager.SetSubcategoriesInput | src/components/CategoryManagement.tsx:542 | the subcategories field holds the text as typed and nothing else changes |
| CategoryManagement.CategoryManager.SetIcon | src/components/CategoryManagement.tsx:560 | the chosen icon becomes the form's icon and nothing else changes |
| CategoryManagement.CategoryManager.SetColor | src/components/CategoryManagement.tsx:582 | the chosen colour becomes the form's colour and nothing else changes |
| CategoryManagement.CategoryManager.TypeBudget | src/components/CategoryManagement.tsx:601 | the budget field holds the typed text formatted: only digits and commas, and with its commas removed exactly the typed digits |
| CategoryManagement.CategoryManager.Submit | src/components/CategoryManagement.tsx:144-178 | the outcome is what `Submitted` gives for the form; a rejected form stays as it was, otherwise the dialog closes and the form is reset |
| CategoryManagement.CategoryManager.AskDelete | src/components/CategoryManagement.tsx:96 | the id becomes the one chosen for deletion and nothing else changes |
| CategoryManagement.CategoryManager.ConfirmDelete | src/components/CategoryManagement.tsx:180-186 | a chosen non-empty id goes to the delete callback and the choice is cleared; otherwise nothing is deleted and nothing changes |
| Common.Filter | src/hooks/useData.ts:138 | `filter` keeps only elements that pass, keeps every element that passes, and never grows the list |
| Common.FilterMultiset | src/hooks/useData.ts:138 | `filter` keeps each passing element with its multiplicity and drops every other |
| Common.FilterAll | src/hooks/useData.ts:138 | a filter that every element passes is the identity |
| Common.FilterNone | src/hooks/useData.ts:138 | a filter that no element passes is empty |
| Common.FilterConcat | src/hooks/useData.ts:138 | filtering distributes over concatenation |
| Common.MapWhere | src/hooks/useData.ts:116-118 | `map(x => p(x) ? f(x) : x)` replaces exactly the matching elements, each in its place, and keeps the length |
| Common.MapWhereNone | src/hooks/useData.ts:116-118 | when nothing matches, the update changes nothing |
| Common.Map | src/hooks/useData.ts:28 | `map(f)` keeps the length and applies `f` position by position |
| Common.Round | src/components/ReportStatistics.tsx:64 | `Math.round` gives the integer within half a unit, a half rounded up |
| Common.SumOfConcat | src/components/MonthlySummary.tsx:22-23 | the `reduce` sum of a concatenation is the sum of the sums |
| Common.SumOfFilter | src/components/MonthlySummary.tsx:22-23 | summing the filtered elements is summing all of them with the rejected ones counted as zero |
| Common.SumOfMonotonic | src/components/MonthlySummary.tsx:22-23 | a sum of pointwise smaller terms is smaller |
| Common.SumOfNonNegative | src/components/MonthlySummary.tsx:22-23 | a sum of non-negative terms is non-negative |
| Common.Insert | src/hooks/useDashboardWidgets.ts:31 | one insertion step of the stable sort: the list stays ascending, gains exactly the new element, and the element goes before the first not-smaller key |
| Common.SortBy | src/hooks/useDashboardWidgets.ts:52 | `[...s].sort((a, b) => key(a) - key(b))` is ascending by key and a permutation of the input |
| Common.SortByFirstIsLeast | src/hooks/useDashboardWidgets.ts:52 | the first element of the ascending sort is an input element with the least key |
| Common.SortBySorted | src/hooks/useDashboardWidgets.ts:52 | sorting a list already in order changes nothing |
| Common.FindIndex | src/hooks/useDashboardWidgets.ts:32 | `findIndex` is -1 exactly when no element matches, otherwise the first matching position |
| Common.Distinct | src/components/SmartInsights.tsx:17 | `Array.from(new Set(s))` has no duplicates, the same members as `s`, and is no longer |
| Common.AddTo | src/components/ReportStatistics.tsx:69-71 | one `acc[k] = (acc[k] \|\| 0) + v` step adds `v` to `k`'s total and nothing else, updating an existing key in place and appending a new one |
| Common.LookupEntry | src/components/ReportStatistics.tsx:69-71 | in an object without repeated keys every entry is what its key looks up |
| Common.LookupAbsent | src/components/ReportStatistics.tsx:69-71 | a key that was never set reads as 0 (`acc[k] \|\| 0`) |
| Common.Totals | src/components/ReportStatistics.tsx:68-71 | the accumulated object has no repeated keys and lists the keys in first-occurrence order |
| Common.TotalsLookup | src/components/ReportStatistics.tsx:68-71 | each key's total is the sum of the values recorded under it |
| Common.TotalsPreserveSum | src/components/ReportStatistics.tsx:68-71 | the totals add up to the sum of all recorded values |
| Common.AddToSum | src/components/ReportStatistics.tsx:69-71 | one accumulation step raises the sum of the totals by the added value |
| Common.ByValueDesc | src/components/MonthlySummary.tsx:33-34 | `Object.entries(acc).sort(([, a], [, b]) => b - a)` is a permutation of the entries, largest value first |
| Common.ByValueDescFirst | src/components/MonthlySummary.tsx:33-34 | the first entry of that order is an entry with the greatest value |
| Common.ArgMaxFirst | src/components/ReportStatistics.tsx:74-79 | the strict `amount > topCategory.amount` scan picks an entry with the greatest value, the first one among equals |
| Common.OrMissing | src/hooks/useData.ts:33 | `s \|\| undefined` is present exactly when the text is present and non-empty, and is then that text |
| Common.NoDuplicatesCountOne | src/components/TrendChart.tsx:51 | a list without repeats holds each value at most once |
| DataHooks.TransactionOf | src/hooks/useData.ts:28-38 | a fetched row keeps id, amount, type, category and date; a missing or empty subcategory becomes none, a missing description empty text, a missing flag `false`, missing tags none; reminder fields are not read |
| DataHooks.DraftRoundTrip | src/hooks/useData.ts:53-87 | adding a draft and reading the row back gives the draft with the new id; only an empty subcategory is lost |
| DataHooks.ReplaceTransactionExactly | src/hooks/useData.ts:116-118 | the update keeps the length and puts the new record at every position of its id and nowhere else |
| DataHooks.ReplaceTransactionLaws | src/hooks/useData.ts:116-118 | updating a record that is not in the list changes nothing, and updating twice is updating once |
| DataHooks.RemoveTransactionExactly | src/hooks/useData.ts:138 | deletion removes exactly the records with the id and keeps every other with its multiplicity |
| DataHooks.TransactionStore.constructor | src/hooks/useData.ts:12-40 | without a user the list is empty; otherwise it is the rows mapped one by one, in the backend's order |
| DataHooks.TransactionStore.AddTransaction | src/hooks/useData.ts:53-93 | with a user the stored record goes in front of the list; without one nothing changes |
| DataHooks.TransactionStore.UpdateTransaction | src/hooks/useData.ts:95-124 | with a user the record with the same id is replaced; without one nothing changes |
| DataHooks.TransactionStore.DeleteTransaction | src/hooks/useData.ts:126-144 | with a user the records with the id are removed; without one nothing changes |
| DataHooks.CategoryOf | src/hooks/useData.ts:177-186 | a fetched category keeps id, name, icon and colour; a truthy budget is kept and makes it an expense category, otherwise it has no budget and is an income category; nothing is spent; missing subcategories read as none |
| DataHooks.NewCategory | src/hooks/useData.ts:201-229 | the category `addCategory` appends has the new id, the given name, icon and colour, and no subcategories |
| DataHooks.NewCategoryBudget | src/hooks/useData.ts:212-226 | the budget survives `addCategory` exactly when it is truthy, and the category is then an expense one; a zero budget is lost and the category becomes an income one |
| DataHooks.ReplaceCategoryExactly | src/hooks/useData.ts:254-256 | the update keeps the length and puts the category at every position of its id and nowhere else |
| DataHooks.RemoveCategoryExactly | src/hooks/useData.ts:276 | deletion removes exactly the categories with the id and keeps every other with its multiplicity |
| DataHooks.CategoryStore.constructor | src/hooks/useData.ts:161-188 | without a user the list is empty; otherwise it is the rows mapped one by one, oldest first |
| DataHooks.CategoryStore.AddCategory | src/hooks/useData.ts:201-235 | with a user the new category goes at the end; without one nothing changes |
| DataHooks.CategoryStore.UpdateCategory | src/hooks/useData.ts:237-262 | with a user the category with the same id is replaced; without one nothing changes |
| DataHooks.CategoryStore.DeleteCategory | src/hooks/useData.ts:264-282 | with a user the categories with the id are removed; without one nothing changes |
| Debts.NewDebt | src/hooks/useDebts.ts:64-96 | the debt `addDebt` adds carries the submitted name, amounts and creditor with the backend's id and timestamps; an empty reason or due date is stored as `null` and reads back as missing |
| Debts.ApplyUpdate | src/hooks/useDebts.ts:124-126 | `{ ...d, ...updates }`: each field the update carries replaces the debt's, every other field, the id and the timestamps stay |
| Debts.ApplyUpdateLaws | src/hooks/useDebts.ts:124-126 | an empty update leaves a debt unchanged, and applying the same update twice equals applying it once |
| Debts.UpdateData | src/hooks/useDebts.ts:108-114 | the record sent to the backend has an entry under the column name exactly for each field the update carries, with that field's value; an empty reason or due date is sent as `null` |
| Debts.UpdateByIdChangesOnlyTarget | src/hooks/useDebts.ts:124-126 | the update keeps the list's length, leaves every debt with another id as it was and applies the update to each debt with the id |
| Debts.DeleteByIdRemovesExactly | src/hooks/useDebts.ts:146 | after deleting, no debt has the id, and every debt with another id occurs exactly as often as before |
| Debts.PaidAfter | src/hooks/useDebts.ts:158 | the new paid amount is the old one plus the payment, capped at the total: it never exceeds the total and equals the sum whenever the sum does not |
| Debts.Stats | src/hooks/useDebts.ts:167-185 | remaining is total minus paid; progress is paid as a percentage of the total, and 0 when the total is not positive |
| Debts.StatsBounded | src/hooks/useDebts.ts:167-185 | when every debt's payment lies between 0 and its total, progress lies between 0 and 100 and nothing remains negative |
| Debts.ProgressBounded | src/hooks/useDebts.ts:184 | a payment between 0 and a positive total is a percentage between 0 and 100 |
| Debts.DebtBook.constructor | src/hooks/useDebts.ts:23-51 | without a signed-in user the list is empty; otherwise it is the fetched list |
| Debts.DebtBook.AddDebt | src/hooks/useDebts.ts:64-102 | with a user the new debt is put in front of the list; without one nothing changes |
| Debts.DebtBook.UpdateDebt | src/hooks/useDebts.ts:104-132 | with a user every debt with the id receives the update; without one nothing changes |
| Debts.DebtBook.DeleteDebt | src/hooks/useDebts.ts:134-152 | with a user the debts with the id are removed; without one nothing changes |
| Debts.DebtBook.AddPayment | src/hooks/useDebts.ts:154-165 | an unknown id changes nothing; otherwise the first debt with the id gives the capped new paid amount, written to every debt with the id, and the fully-paid message is due exactly when that amount reaches the debt's total |
| Debts.PaymentCapped | src/hooks/useDebts.ts:154-165 | after a payment, each debt with the id holds the capped amount, never above its total, and every other debt is untouched |
| ExpenseTypes.CategoryTotalIsSum | src/components/MonthlySummary.tsx:26-31 | the per-category object built with `(acc[t.category] \|\| 0) + t.amount` holds, for each category, the sum of its transactions' amounts (0 / absent when there are none) |
| ExpenseTypes.CategoryTotalsEntry | src/components/MonthlySummary.tsx:26-31 | every entry of the per-category totals is the sum of its category's amounts |
| ExpenseTypes.CategoryHasEntry | src/components/MonthlySummary.tsx:26-31 | every category of the summed transactions gets an entry |
| ExpenseTypes.EntryHasCategory | src/components/MonthlySummary.tsx:26-31 | every entry names the category of some summed transaction |
| ExpenseTypes.TopEntryIsLargest | src/components/SmartInsights.tsx:38 | the first entry after sorting by value descending is absent exactly for no entries, is one of the entries and bounds them all |
| ExpenseTypes.SumByCategory | src/components/ReportStatistics.tsx:68-71 | the `forEach` accumulation loop produces exactly the per-category totals (first-insertion key order) |
| ExpenseTypes.SubcategoryNames | src/components/ReportingFilters.tsx:45 | the names of a category's subcategories are the strings themselves or each record's `name`, position by position |
| ExpenseTypes.DefaultWidgetsWellFormed | src/types/expense.ts:50-56 | five default widgets with distinct ids, all enabled, each `order` equal to its position |
| ExpenseTypes.DefaultCategoriesHaveSubcategories | src/types/expense.ts:59-153 | eleven built-in expense and four income categories, each with at least one subcategory |
| MonthlyAnalysis.LastMonthDate | src/components/MonthlyAnalysis.tsx:35 | the first of the month before is a real calendar date |
| MonthlyAnalysis.LastMonthIsPrevious | src/components/MonthlyAnalysis.tsx:35 | the first of last month is 1 December of the year before in January, and the first of the previous month of the same year otherwise |
| MonthlyAnalysis.ByCategory | src/components/MonthlyAnalysis.tsx:39-42 | `all` keeps the whole list; any other choice keeps exactly the transactions of that category |
| MonthlyAnalysis.CurrentMonthMembership | src/components/MonthlyAnalysis.tsx:34-45 | a transaction with a readable date counts for this month exactly when it is dated in today's year and month and belongs to the chosen category |
| MonthlyAnalysis.LastMonthMembership | src/components/MonthlyAnalysis.tsx:35-50 | a transaction with a readable date counts for last month exactly when it is dated in the calendar month before this one (December of the year before in January) and belongs to the chosen category |
| MonthlyAnalysis.ChangeRecovers | src/components/MonthlyAnalysis.tsx:55-56 | growing last month's figure by the change gives this month's; the change is positive exactly when the figure grew, negative exactly when it shrank, and 0 when last month had nothing |
| MonthlyAnalysis.SavingChangeRecovers | src/components/MonthlyAnalysis.tsx:57-59 | dividing by the size of last month's saving keeps the sign right: the change is positive exactly when more was saved, even after a month of overspending, and last month's saving grown by the change is this month's |
| MonthlyAnalysis.DangerousOrdered | src/components/MonthlyAnalysis.tsx:62-64 | exactly the categories past 90 percent of their budget, each as often as it occurs, the most used first |
| MonthlyAnalysis.TopExpenseIsLargest | src/components/MonthlyAnalysis.tsx:66-72 | there is no top category exactly when the month has no expense; otherwise it is a category of the month's expenses, its amount is that category's total, and no category's total is larger |
| MonthlyAnalysis.SavingShare | src/components/MonthlyAnalysis.tsx:77-81 | for a category with a budget, the budget left is budget minus spent and its share is the budget left as a percentage of the budget |
| MonthlyAnalysis.TopSavingIsLargest | src/components/MonthlyAnalysis.tsx:74-82 | there is no top saving exactly when no category has both a budget and a spent figure; otherwise it is one of those categories' savings, and none of them has more budget left |
| MonthlyAnalysis.ComputeAnalysis | src/components/MonthlyAnalysis.tsx:44-72 | the memoised computation, with `categoryExpenses` filled by its `forEach` loop, yields the analysis of the list: both months' figures, their changes, the dangerous categories, the top expense and the top saving |
| MonthlyAnalysis.EmptyListAnalysis | src/components/MonthlyAnalysis.tsx:44-72 | with no transactions both months show nothing, every change is 0 and there is no top expense |
| MonthlySummary.MonthTransactionsExactly | src/components/MonthlySummary.tsx:17-21 | a transaction with a readable date is in this month's list exactly when it is dated in today's year and month |
| MonthlySummary.ColorFor | src/components/MonthlySummary.tsx:37-38 | a category always gets a colour: the first category of that name's own, or the grey fallback when it has none or there is no such category |
| MonthlySummary.TopThreeOrdered | src/components/MonthlySummary.tsx:33-35 | at most three entries, largest first, each one of the totals, and every total left out is no larger than the last one shown |
| MonthlySummary.TopThreeFrom | src/components/MonthlySummary.tsx:33-35 | each of the three is one of the category totals |
| MonthlySummary.TotalsEntryIsSum | src/components/MonthlySummary.tsx:26-31 | each entry of the totals is the sum of that category's expenses |
| MonthlySummary.TopCategoriesAreTotals | src/components/MonthlySummary.tsx:26-39 | each top category's amount is the sum of that category's expenses this month |
| MonthlySummary.TotalBudgetOfAll | src/components/MonthlySummary.tsx:46 | leaving out categories without a budget changes nothing: the total is the sum of all budgets with a missing one read as 0 |
| MonthlySummary.BudgetUsedBounds | src/components/MonthlySummary.tsx:47 | without a positive budget the share used is 0; spending within a positive budget uses between 0 and 100 percent of it |
| MonthlySummary.PerDayAddsUp | src/components/MonthlySummary.tsx:50-51 | spending the daily amount on every day left uses up exactly what is left; with no day left the daily amount is 0 |
| MonthlySummary.DaysRemainingRange | src/components/MonthlySummary.tsx:42-43 | the days left lie between 0 and one less than the month's length, and are 0 exactly on the last day of the month |
| MonthlySummary.StatusMonotone | src/components/MonthlySummary.tsx:67 | using more of the budget never makes the state milder |
| MonthlySummary.WithinBudgetNotDanger | src/components/MonthlySummary.tsx:47-67 | spending within a positive budget is never shown as danger |
| PasswordChange.SubmitStep | src/components/PasswordChange.tsx:34-52 | a password breaking a rule is refused first; a valid one whose confirmation differs is refused next; otherwise the backend is asked to store the password, which equals its confirmation |
| PasswordChange.UpdateOnlyWhenValid | src/components/PasswordChange.tsx:30-52 | the backend is asked to store a password exactly when it meets all four rules and was typed the same way twice |
| PasswordChange.EnabledExactlyWhenSubmitProceeds | src/components/PasswordChange.tsx:165 | while nothing is loading, the save button is enabled exactly when a click would reach the backend; while loading it is disabled |
| PasswordChange.MatchNotice | src/components/PasswordChange.tsx:154-157 | no notice while the confirmation is empty; otherwise the notice says whether the two entries match |
| PasswordChange.Checklist | src/components/PasswordChange.tsx:116-121 | four requirements in rule order, each with its message and whether the new password meets it |
| PasswordChange.ChecklistAgreesWithErrors | src/components/PasswordChange.tsx:21-31 | a requirement is ticked exactly when its message is not among the password's errors |
| PasswordChange.UpdateErrorMessage | src/components/PasswordChange.tsx:54-59 | a refusal mentioning `same_password` gets its fixed message; any other is shown after the generic prefix |
| Recurring.TodayYmd | src/components/RecurringManager.tsx:27-33 | for years 1000..9999 `todayYMD()` reads back as today's date |
| Recurring.AddMonthsDate | src/components/RecurringManager.tsx:41-49 | `addMonths`' date arithmetic (setMonth, month-end lookup, setDate of the minimum) always gives a valid date |
| Recurring.AddWeeks | src/components/RecurringManager.tsx:35-39 | `addWeeks` succeeds exactly when the input is a date (otherwise `toISOString` throws) and then prints ten characters |
| Recurring.AddMonths | src/components/RecurringManager.tsx:41-49 | `addMonths` succeeds exactly when the input is a date and then prints ten characters |
| Recurring.Advance | src/components/RecurringManager.tsx:97 | the cadence step succeeds exactly when the current `nextRunDate` is a date |
| Recurring.AddWeeksExact | src/components/RecurringManager.tsx:35-39 | `addWeeks(ymd, n)` lands exactly `7n` days later across month and year ends, and reads back as a date while within years 0..9999 |
| Recurring.TargetMonth | src/components/RecurringManager.tsx:44 | the month `getMonth() + n` designates is exactly `n` months after the start month |
| Recurring.ConstructorYearLeap | src/components/RecurringManager.tsx:46 | reading years 1..99 as 1900..1999 keeps whether they are leap years |
| Recurring.AddMonthsKeepsDay | src/components/RecurringManager.tsx:41-49 | `addMonths` keeps the day of the month: the same day in the target month when it fits, otherwise that day in the month after (31 January + 1 month = 31 March), for target years other than 0 |
| Recurring.SetMonthTarget | src/components/RecurringManager.tsx:44 | `setMonth` is the original day rolled over from the target month |
| Recurring.RollsIntoNextMonth | src/components/RecurringManager.tsx:44 | a day past the end of the target month lands in the next month of the same year, which has 31 days |
| Recurring.ClampKeepsDay | src/components/RecurringManager.tsx:46-47 | once the rolled-over date is in a month holding the original day, the clamp `setDate(min(day, lastDay))` restores that day |
| Recurring.SetDateSameMonth | src/components/RecurringManager.tsx:47 | `setDate` depends only on the year and month of the date |
| Recurring.SetDateKeeps | src/components/RecurringManager.tsx:47 | setting a valid date's own day changes nothing |
| Recurring.MonthEnd | src/components/RecurringManager.tsx:46 | `new Date(y, m, 0).getDate()` is the number of days of month `m` for every year but 0 |
| Recurring.SetDateInMonth | src/components/RecurringManager.tsx:47 | `setDate(k)` is day `k` of the month, rolled over |
| Recurring.AddMonthsYearZero | src/components/RecurringManager.tsx:46 | in year 0 the lookup reads 1900 (not leap): 29 January 0 + 1 month gives 28 February 0 |
| Recurring.AddMonthsLater | src/components/RecurringManager.tsx:41-49 | `addMonths` by one or more months moves strictly later |
| Recurring.AddMonthsLaterMonth | src/components/RecurringManager.tsx:41-49 | `addMonths(p, n)` lands at least `n` months on |
| Recurring.RolledMonthAtLeast | src/components/RecurringManager.tsx:44 | `setMonth(getMonth() + n)` lands `n` months on or further |
| Recurring.AdvanceIncreases | src/components/RecurringManager.tsx:97 | each successful step whose result is a date again gives a strictly later `nextRunDate` string, so the loop condition `nextRunDate <= now` makes progress |
| Recurring.Occurrence | src/components/RecurringManager.tsx:86-95 | each created transaction copies the template's amount, type, category, subcategory and description, is dated at `nextRunDate`, is marked recurring and has the tags or `[]` |
| Recurring.CatchUpBound | src/components/RecurringManager.tsx:83-85 | the guard limits a template to at most 12 transactions per run |
| Recurring.CatchUpExit | src/components/RecurringManager.tsx:85 | a catch-up that ends normally leaves the template no longer due, or has used up the guard |
| Recurring.CatchUpFirst | src/components/RecurringManager.tsx:85-95 | the first transaction is the template's own occurrence and exists only when the template is due |
| Recurring.CatchUpAt | src/components/RecurringManager.tsx:85-97 | every created transaction is the template's occurrence at a date that was due (`date <= now`) |
| Recurring.CatchUpStepAt | src/components/RecurringManager.tsx:97 | each created date is one step after the previous one |
| Recurring.CatchUpOccurrences | src/components/RecurringManager.tsx:85-97 | all created transactions are due occurrences of the template, the first at the original `nextRunDate` |
| Recurring.CatchUpSteps | src/components/RecurringManager.tsx:97 | the created dates follow each other by one cadence step |
| Recurring.CatchUpLeaves | src/components/RecurringManager.tsx:82-99 | a completed catch-up changes only `nextRunDate`, which is one step after the last created date, or nothing when nothing was due |
| Recurring.CatchUpIncreasing | src/components/RecurringManager.tsx:97 | the dates a completed catch-up creates strictly increase |
| Recurring.CatchUpOrdered | src/components/RecurringManager.tsx:85-99 | any two created dates are strictly increasing, not only neighbours, so no occurrence is created twice |
| Recurring.NotDueUntouched | src/components/RecurringManager.tsx:85 | a template that is not due is left exactly as it was and creates nothing |
| Recurring.RunAllUpdated | src/components/RecurringManager.tsx:80-101 | the returned list has the input's length and order, entry `i` is what template `i`'s catch-up left, and at most 12 transactions per template are created |
| Recurring.RunAllOnlyDatesChange | src/components/RecurringManager.tsx:80-101 | every updated template equals its original apart from `nextRunDate`, and templates that were not due are unchanged |
| Recurring.TransactionSink.Add | src/components/RecurringManager.tsx:86-95 | the `addTransaction` callback records the transaction after the earlier ones |
| Recurring.ProcessRecurringDue | src/components/RecurringManager.tsx:71-102 | without a signed-in user returns `{created: 0, updated: templates}` and creates nothing; otherwise returns the count and updated list of the specified run (or fails when a date step throws) and hands exactly the run's transactions to `addTransaction`, in order |
| Recurring.CatchUpAll | src/components/RecurringManager.tsx:77-101 | the outer loop over the copied templates produces exactly the specified run: created count, updated copies, and the transactions handed over, or failure |
| Recurring.CatchUpTemplate | src/components/RecurringManager.tsx:82-99 | the inner `while` loop on one template hands over exactly the specified occurrences, counts them in `created`, and leaves the specified template, or reports the step that threw |
| Recurring.CatchUpFromPrepend | src/components/RecurringManager.tsx:85-99 | the inner loop's accumulating reading of the catch-up equals the recursive specification with the accumulated transactions in front |
| Recurring.CatchUpFromStart | src/components/RecurringManager.tsx:84-85 | from nothing emitted and guard 0 the inner loop's reading is the catch-up specification |
| Recurring.RunFromPrepend | src/components/RecurringManager.tsx:81-100 | the outer loop's accumulating reading of the run equals the specification of the remaining templates with the finished ones in front |
| Recurring.RunFromStart | src/components/RecurringManager.tsx:80-81 | from no template done the outer loop's reading is the run specification |
| Recurring.RunAllStep | src/components/RecurringManager.tsx:81-100 | the run of the templates from `i` on is template `i`'s catch-up followed by the run of the rest |
| Recurring.StorageKeyInjective | src/components/RecurringManager.tsx:51-53 | two users share a storage key exactly when they have the same owner name (missing or empty id and "anon" all map to "anon") |
| Recurring.LoadTemplates | src/components/RecurringManager.tsx:55-65 | stored text that parses to an array gives exactly that array, and a non-empty result is always such an array; missing or empty text, malformed text and non-arrays give `[]` |
| Recurring.LoadAfterSave | src/components/RecurringManager.tsx:55-69 | loading after saving gives the saved list back |
| Recurring.RemoveTemplateSpec | src/components/RecurringManager.tsx:153-157 | removal deletes every template with that id and keeps every other with its multiplicity; an absent id changes nothing |
| Recurring.SaveTemplateSpec | src/components/RecurringManager.tsx:159-180 | saving is refused exactly when the amount is not positive or the category empty; a new id goes to the front; a known id replaces the first template with that id and nothing else |
| Recurring.NewTemplate | src/components/RecurringManager.tsx:133-146 | a new template is a monthly expense of amount 0 without tags in a non-empty category (the first one, or "سایر") |
| Recurring.NewTemplateNeedsAmount | src/components/RecurringManager.tsx:133-168 | a freshly created template cannot be saved before an amount is entered |
| Recurring.RecurringManager.constructor | src/components/RecurringManager.tsx:111-120 | the screen starts with the user's loaded templates |
| Recurring.RecurringManager.Persist | src/components/RecurringManager.tsx:128-131 | the state and storage both take the new list |
| Recurring.RecurringManager.Remove | src/components/RecurringManager.tsx:153-157 | the state becomes the list without that id and storage holds it |
| Recurring.RecurringManager.Save | src/components/RecurringManager.tsx:159-180 | a refused save reports its error and changes nothing; an accepted one persists the saved list |
| Recurring.RecurringManager.RunNow | src/components/RecurringManager.tsx:182-194 | a completed run persists the updated list; a run that throws persists nothing; without a user nothing is created |
| Reminders.NextDue | src/hooks/useReminders.ts:38-41 | the next due date is a real calendar date |
| Reminders.NextDueAfterToday | src/hooks/useReminders.ts:38-43 | the due date always lies at least one day after today, so a reminder is never due today |
| Reminders.NextMonthLater | src/hooks/useReminders.ts:40 | the same day of the month one month on lies after today |
| Reminders.ReminderWindow | src/hooks/useReminders.ts:44 | the transaction's own window when it is set and not 0, three days otherwise |
| Reminders.ReminderFor | src/hooks/useReminders.ts:34-58 | a transaction whose date parses gives a reminder exactly when its next due date is within its window and the reminder's id, the transaction id and the due date, is not dismissed; the reminder carries that id and due date, the days until it, and the description (or the category) as title |
| Reminders.Collect | src/hooks/useReminders.ts:27-60 | at most one reminder per transaction |
| Reminders.CollectExactly | src/hooks/useReminders.ts:27-60 | every reminder comes from a recurring transaction of the list, and every recurring transaction with a reminder contributes it |
| Reminders.Upcoming | src/hooks/useReminders.ts:31-61 | the reminders are ordered by days until due, soonest first, and are a permutation of the collected ones |
| Reminders.UpcomingBounds | src/hooks/useReminders.ts:31-61 | no shown reminder is dismissed, and each is due after today and within the window of a recurring transaction with its transaction id |
| Reminders.NoticeFor | src/hooks/useReminders.ts:70-85 | the due-today notice exactly at zero days, the due-tomorrow notice for any other count up to one |
| Reminders.NeverDueToday | src/hooks/useReminders.ts:70-85 | as every reminder is due after today, the due-today notice is never raised, and the due-tomorrow notice is raised exactly for reminders due in one day |
| Reminders.LoadDismissed | src/hooks/useReminders.ts:17-20 | a missing or empty entry gives no dismissed ids; a stored list is read back; other text gives the list it parses to, and nothing when it is not a list |
| Reminders.ReminderBoard.constructor | src/hooks/useReminders.ts:17-24 | the loaded list, written back to storage at once |
| Reminders.ReminderBoard.Dismiss | src/hooks/useReminders.ts:66-68 | the id is appended to the dismissed list, which is written back to storage |
| Reminders.DismissHides | src/hooks/useReminders.ts:47-67 | a dismissed reminder is no longer shown, and the stored list reads back after a reload |
| ReportStatistics.TotalsCountPositiveOnly | src/components/ReportStatistics.tsx:34-38 | each total is the sum over the whole list of the positive amounts of its type, so neither total is negative |
| ReportStatistics.PositiveTotal | src/components/ReportStatistics.tsx:34-38 | a list of positive amounts adds up to at least its length |
| ReportStatistics.SavingsRateBounds | src/components/ReportStatistics.tsx:43-45 | with some income and no more spending than income, the savings rate lies in 0..100, and is 100 when nothing was spent |
| ReportStatistics.SortedAmounts | src/components/ReportStatistics.tsx:53-55 | the expense amounts in ascending order, a permutation of the amounts |
| ReportStatistics.MedianSplits | src/components/ReportStatistics.tsx:53-58 | the median is one of the amounts, at most half of the amounts (rounded down) lie below it and at most half of the others lie above it |
| ReportStatistics.SortedBelow | src/components/ReportStatistics.tsx:57 | in an ascending list, at most `k` elements are below the one at position `k` |
| ReportStatistics.SortedAbove | src/components/ReportStatistics.tsx:57 | in an ascending list, at most the elements after position `k` are above the one there |
| ReportStatistics.CountOutside | src/components/ReportStatistics.tsx:57 | when nothing in the second part passes a test, at most the first part's length does |
| ReportStatistics.CountOutsidePrefix | src/components/ReportStatistics.tsx:57 | when nothing in the first part passes a test, at most the second part's length does |
| ReportStatistics.FilterCountPermutation | src/components/ReportStatistics.tsx:53-55 | sorting does not change how many amounts pass a test |
| ReportStatistics.TopOf | src/components/ReportStatistics.tsx:73-79 | the top category's amount is at least every category's total and never negative; it is the placeholder exactly when no total is positive, and otherwise the first entry with the greatest total |
| ReportStatistics.TopCategoryOf | src/components/ReportStatistics.tsx:73-79 | the scan over the entries finds the top category `TopOf` describes |
| ReportStatistics.OverBudgetExactly | src/components/ReportStatistics.tsx:81-86 | a category counts as over budget exactly when it has a positive budget and its expenses add up to more than it |
| ReportStatistics.PreviousMonthIsOneBefore | src/components/ReportStatistics.tsx:99-100 | the previous month is a month index, one month earlier counting months from year 0; January goes back to December of the year before |
| ReportStatistics.GrowthRateSign | src/components/ReportStatistics.tsx:110-112 | with spending last month, the growth is 0 for equal spending, -100 for none this month, and positive exactly when this month is at least half a percent above last month |
| ReportStatistics.EmptyListStats | src/components/ReportStatistics.tsx:16-31 | an empty list gives every figure 0 and the placeholder top category `-` |
| ReportStatistics.StatsOfList | src/components/ReportStatistics.tsx:33-125 | on a non-empty list the balance is income less expense, the counts are those of the positive transactions of each type and add up to at most the list's length, each total is at least its count, the savings rate is 0 without income, and the top category and median are those of the positive expenses |
| ReportStatistics.IncomeExpenseDisjoint | src/components/ReportStatistics.tsx:34-35 | no transaction is counted both as income and as expense |
| ReportingFilters.ReportSelection | src/components/ReportingFilters.tsx:49-60 | the selection is drawn from the list and is never longer |
| ReportingFilters.ReportSelectionExactly | src/components/ReportingFilters.tsx:50-60 | a transaction is selected exactly when it is in the list and passes the category, subcategory, type and date filters, and a passing one occurs as often as in the list |
| ReportingFilters.ClearedSelectsAll | src/components/ReportingFilters.tsx:66-72 | with every filter cleared the selection is the whole list, in order |
| ReportingFilters.ChangeCategory | src/components/ReportingFilters.tsx:74-77 | a category change sets the category, puts the subcategory back to `all` and keeps the type and the dates |
| ReportingFilters.ChangeCategoryKeepsCategory | src/components/ReportingFilters.tsx:74-77 | right after choosing a category, each of its transactions is selected exactly when it passes the type and date filters, whatever its subcategory |
| ReportingFilters.SubcategoryOptions | src/components/ReportingFilters.tsx:41-46 | no subcategories while nothing is chosen (`all` here, the empty text in the add-transaction dialog of `AddTransactionModal`) or for an unknown name; otherwise the names of the first category with the chosen name, none when it has no subcategories |
| ReportingFilters.ReportFiltersCount | src/components/ReportingFilters.tsx:79-85 | at most five, and zero exactly when every filter has its cleared value |
| SavingGoals.NewGoal | src/hooks/useSavingGoals.ts:73-105 | the goal `addGoal` adds starts at zero and carries the submitted name, target, colour and icon with the backend's id and timestamps; an empty deadline is stored as `null` and reads back as missing |
| SavingGoals.NewAmount | src/hooks/useSavingGoals.ts:119-121 | a deposit adds the amount; a withdrawal subtracts it, reaches zero exactly when the amount covers the balance, and never goes below zero |
| SavingGoals.DepositThenWithdraw | src/hooks/useSavingGoals.ts:119-121 | withdrawing what was just deposited restores a non-negative balance |
| SavingGoals.MilestoneOf | src/hooks/useSavingGoals.ts:151-158 | with a positive target the goal is reached exactly when the amount reaches the target, and the near-goal message is due exactly when the amount is at least 90% of the target and below it; with a zero target only a positive amount counts as reached |
| SavingGoals.ProgressScale | src/hooks/useSavingGoals.ts:151-152 | for a positive target, the percentage is at least 100 exactly when the amount reaches the target, and at least 90 exactly when ten times the amount reaches nine times the target |
| SavingGoals.SetAmountChangesOnlyTarget | src/hooks/useSavingGoals.ts:146-148 | the list keeps its length; each goal with the id gets the new amount and nothing else changes in it; every other goal stays |
| SavingGoals.DeleteByIdRemovesExactly | src/hooks/useSavingGoals.ts:177 | after deleting, no goal has the id, and every goal with another id occurs exactly as often as before |
| SavingGoals.GoalBook.constructor | src/hooks/useSavingGoals.ts:32-60 | without a signed-in user the list is empty; otherwise it is the fetched list |
| SavingGoals.GoalBook.AddGoal | src/hooks/useSavingGoals.ts:73-111 | with a user the new goal is put in front of the list; without one nothing changes |
| SavingGoals.GoalBook.UpdateGoalAmount | src/hooks/useSavingGoals.ts:113-163 | without a user or with an unknown id nothing changes and no message is shown; otherwise the first goal with the id gives the new balance, every goal with the id takes it, and the message is the milestone of that balance against that goal's target |
| SavingGoals.GoalBook.DeleteGoal | src/hooks/useSavingGoals.ts:165-183 | with a user the goals with the id are removed; without one nothing changes |
| SmartInsights.InsertByDate | src/components/SmartInsights.tsx:16 | inserting one transaction into a list sorted newest first keeps it sorted and adds exactly that transaction |
| SmartInsights.NewestInFront | src/components/SmartInsights.tsx:16 | a transaction at least as new as the head may go in front of a sorted list |
| SmartInsights.HeadNewerThanRest | src/components/SmartInsights.tsx:16 | a head newer than the inserted transaction stays in front of the rest after the insertion |
| SmartInsights.ByDateDesc | src/components/SmartInsights.tsx:16 | the sorted copy is a permutation of the transactions, newest date first |
| SmartInsights.InsertSum | src/components/SmartInsights.tsx:10-12 | an insertion adds the inserted transaction's share to every filtered sum |
| SmartInsights.SortedSumBy | src/components/SmartInsights.tsx:10-16 | sorting changes no filtered sum |
| SmartInsights.MonthKeysNewestFirst | src/components/SmartInsights.tsx:6-8 | on a list sorted newest first the `yyyy-mm` keys never increase |
| SmartInsights.DistinctDecreasing | src/components/SmartInsights.tsx:17 | the distinct values of a non-increasing list strictly decrease |
| SmartInsights.MonthsOfSorted | src/components/SmartInsights.tsx:17 | on a sorted list: at most three months, none exactly when the list is empty, strictly newest first, each one of the list, and each month left out older than all three |
| SmartInsights.PermutedMonthKeys | src/components/SmartInsights.tsx:16-17 | reordering the transactions keeps the set of their months |
| SmartInsights.MonthsFromTransactions | src/components/SmartInsights.tsx:17 | every listed month is the month of one of the unsorted transactions |
| SmartInsights.MonthsLeaveOutOlder | src/components/SmartInsights.tsx:17 | a transaction whose month is not listed is older than all three listed months |
| SmartInsights.MonthsNewestFirst | src/components/SmartInsights.tsx:16-20 | the months of the card: at most three, present exactly when there are transactions, newest first, each a month of the list, and every left-out month older than all listed |
| SmartInsights.DeltaFacts | src/components/SmartInsights.tsx:28-29 | without a month before, the change and its percentage are 0; with one, the change is the difference of the expenses, and with a positive earlier expense the percentage times that expense is a hundred times the change |
| SmartInsights.MonthCategoryTotals | src/components/SmartInsights.tsx:32-37 | the loop fills the category totals of exactly the newest month's expenses, skipping other months and other kinds |
| SmartInsights.FilterStep | src/components/SmartInsights.tsx:33-37 | one more element through a filter appends it exactly when it passes |
| SmartInsights.CategoryTotalsSnoc | src/components/SmartInsights.tsx:36 | one more expense adds its amount to its category's entry |
| SmartInsights.FilterFilter | src/components/SmartInsights.tsx:44-45 | filtering twice is filtering by both conditions |
| SmartInsights.MonthCategoryEntry | src/components/SmartInsights.tsx:36 | a category's entry in the month's totals is the sum of that category's expenses in the month |
| SmartInsights.TopCategoryIsLargest | src/components/SmartInsights.tsx:38 | no top category exactly when the month has no expense; otherwise its amount is that category's spending in the month and no category spent more |
| SmartInsights.SuggestedAmountBand | src/components/SmartInsights.tsx:46-47 | the suggested budget is never negative, 0 when nothing was spent, and otherwise within half a unit of nine tenths of the two months' average |
| SmartInsights.ComputeInsights | src/components/SmartInsights.tsx:15-59 | the memoised computation, with its loop and its conditional suggestion, yields the insights of the list |
| SmartInsights.InsightsFacts | src/components/SmartInsights.tsx:19-58 | the month shown is the newest; its income and expense are those of the whole list in that month; a suggestion exists exactly when there is a top category and a month before, for the top category and not negative |
| Storage.ParseSlot | src/hooks/useDashboardWidgets.ts:8-21 | text the application wrote for a list parses back as exactly that list |
| SubcategoryChart.PaletteColor | src/components/SubcategoryChart.tsx:12-21 | the colour taken by position is always one of the eight palette colours |
| SubcategoryChart.SumForLabels | src/components/SubcategoryChart.tsx:47-50 | the amounts added under a label are those of the transactions carrying it |
| SubcategoryChart.SubcategoryTotalIsSum | src/components/SubcategoryChart.tsx:46-50 | each subcategory label's total is the sum of the transactions carrying it, a missing subcategory counting as "other" |
| SubcategoryChart.SumBySubcategory | src/components/SubcategoryChart.tsx:46-50 | the `forEach` fills exactly the per-subcategory totals |
| SubcategoryChart.PairsTotal | src/components/SubcategoryChart.tsx:52 | the amounts of the keyed pairs add up to all the amounts |
| SubcategoryChart.SharesRecover | src/components/SubcategoryChart.tsx:52-78 | the unguarded share is not a finite number exactly when the total is 0, and otherwise times the total gives back a hundred times the value; the guarded share does the same for a positive total and is 0 otherwise |
| SubcategoryChart.ByValue | src/components/SubcategoryChart.tsx:61-82 | the sorted slices are a permutation of the slices, largest value first |
| SubcategoryChart.SortedFrom | src/components/SubcategoryChart.tsx:61-82 | every sorted slice is one of the unsorted ones |
| SubcategoryChart.ChartExpensesExactly | src/components/SubcategoryChart.tsx:40-44 | a transaction is charted exactly when it is an expense of the list and, with a category selected, of that category |
| SubcategoryChart.ChartData | src/components/SubcategoryChart.tsx:38-84 | the memoised computation, with its accumulating loops, yields the chart of the list and the selected category |
| SubcategoryChart.SubcategoryMode | src/components/SubcategoryChart.tsx:43-61 | with a category selected: one slice per distinct label, none exactly when there are no expenses, largest first, each the sum of its label's expenses, coloured from the palette, with its percentage of the category's spending |
| SubcategoryChart.CategorySlicesAreTotals | src/components/SubcategoryChart.tsx:65-82 | every category slice before the cut is its category's sum with its guarded share of the whole |
| SubcategoryChart.SortKeepsName | src/components/SubcategoryChart.tsx:82 | sorting keeps every category name |
| SubcategoryChart.CategoryHasSlice | src/components/SubcategoryChart.tsx:65-82 | every category with an expense has a slice before the cut |
| SubcategoryChart.CategoryPieShape | src/components/SubcategoryChart.tsx:72-83 | without a selection: at most eight slices, largest first, none exactly when there are no expenses |
| SubcategoryChart.SlicesEmpty | src/components/SubcategoryChart.tsx:65-82 | there are category slices exactly when there are expenses |
| SubcategoryChart.TopEightOrdered | src/components/SubcategoryChart.tsx:83 | cutting a largest-first list to eight keeps it ordered, at most eight long, and empty only when the list is |
| SubcategoryChart.CategoryPieValues | src/components/SubcategoryChart.tsx:72-83 | every slice shown is its category's sum of expenses, with that sum's percentage of all spending, or 0 when spending is not positive |
| SubcategoryChart.CutKeepsLargest | src/components/SubcategoryChart.tsx:83 | a slice cut from a largest-first list is no larger than the last one kept |
| SubcategoryChart.CategoryLeftOut | src/components/SubcategoryChart.tsx:72-83 | a category missing from the chart spent no more than the eighth slice, and the chart then has eight slices |
| Swipe.MoveOffsetBounds | src/components/SwipeableTransaction.tsx:25-36 | a move keeps the offset in [0, 140]; to the right it follows the pointer up to 140 and never passes it; to the left (0.3 resistance, floor 0) it never opens the row further |
| Swipe.SnapSettles | src/components/SwipeableTransaction.tsx:38-45 | a release leaves the row shut (0) or fully open (140), open exactly when the offset was past 70, and snapping twice changes nothing |
| Swipe.StepInRange | src/components/SwipeableTransaction.tsx:20-84 | every touch, mouse or button event keeps the offset within [0, 140] |
| Swipe.IdleEventsIgnored | src/components/SwipeableTransaction.tsx:71-80 | a move without a drag under way changes nothing; leaving the row ends a drag exactly as a release does and changes nothing otherwise |
| Swipe.SettledAfterRelease | src/components/SwipeableTransaction.tsx:82-84 | after a release no drag is under way and the row is shut or open; after a button the row is shut, so a tap edits again |
| Swipe.RunInRange | src/components/SwipeableTransaction.tsx:13-84 | any sequence of events from a row in range (in particular the shut initial row) keeps the offset in [0, 140] |
| Swipe.SwipeableRow.constructor | src/components/SwipeableTransaction.tsx:14-16 | a new row is shut, not dragging, with start 0 |
| Swipe.SwipeableRow.Press | src/components/SwipeableTransaction.tsx:20-23 | records the pointer position as the drag start and starts dragging (touch and mouse alike, lines 47-50), keeping the range invariant |
| Swipe.SwipeableRow.Drag | src/components/SwipeableTransaction.tsx:25-36 | the new state is the Step of a move (also lines 52-60): ignored unless dragging, otherwise the clamped offset; keeps the range invariant |
| Swipe.SwipeableRow.Lift | src/components/SwipeableTransaction.tsx:38-45 | ends the drag and snaps the offset to 140 or 0 (also lines 62-69) |
| Swipe.SwipeableRow.Leave | src/components/SwipeableTransaction.tsx:71-80 | leaving the row releases only when a drag is under way |
| Swipe.SwipeableRow.Tap | src/components/SwipeableTransaction.tsx:136 | a tap asks for the edit exactly when the row is shut |
| Swipe.SwipeableRow.EditPressed | src/components/SwipeableTransaction.tsx:100-108 | the edit button asks for the edit and shuts the row |
| Swipe.SwipeableRow.DeletePressed | src/components/SwipeableTransaction.tsx:109-117 | the delete button asks for the deletion and shuts the row |
| TagInput.AddTag | src/components/TagInput.tsx:39-49 | the list either stays as it was or gains the trimmed tag at its end, and it grows exactly when the trimmed tag is non-empty, not yet in the list and the list is below the maximum |
| TagInput.AddTagKeepsValid | src/components/TagInput.tsx:39-49 | a list without duplicates and within the maximum keeps both properties after an add |
| TagInput.AddTagIdempotent | src/components/TagInput.tsx:39-49 | adding the same tag a second time changes nothing |
| TagInput.RemoveTag | src/components/TagInput.tsx:51-53 | the removed tag no longer occurs and every other tag keeps its number of occurrences |
| TagInput.RemoveAbsentTag | src/components/TagInput.tsx:51-53 | removing a tag that is not in the list gives back the list |
| TagInput.KeyDown | src/components/TagInput.tsx:55-62 | Enter adds the typed text and clears the box only when the tag was added; Backspace in an empty box removes the last tag; any other key (or Backspace with text or no tags) changes nothing |
| TagInput.BackspaceDropsLast | src/components/TagInput.tsx:59-60 | on a duplicate-free list, Backspace in an empty box leaves exactly the list without its last tag |
| TagInput.FilteredSuggestions | src/components/TagInput.tsx:64-68 | a suggestion is offered exactly when it is not yet a tag and contains the typed text, ignoring case (both directions) |
| TagInput.ShownSuggestions | src/components/TagInput.tsx:126 | the first five offered suggestions, in their order, or all of them when fewer are offered |
| TagInput.EmptyInputOffersAll | src/components/TagInput.tsx:64-68 | with nothing typed, every unused suggestion is offered and nothing else |
| TagInput.EnabledAddAdds | src/components/TagInput.tsx:96-120 | when the input is shown (room left) and the add button enabled (non-blank text), a click appends the trimmed new tag |
| Text.TrimStart | src/components/TagInput.tsx:40 | the leading part `trim` removes is all white space and what remains does not start with white space |
| Text.TrimStartSuffix | src/components/TagInput.tsx:40 | what is left after the leading white space is a suffix of the input |
| Text.TrimEnd | src/components/TagInput.tsx:40 | the trailing part `trim` removes is all white space, what remains is a prefix that does not end with white space |
| Text.TrimEmptyIffBlank | src/components/TagInput.tsx:41-42 | `s.trim()` is empty exactly when every character of `s` is white space (so `trimmedTag &&` rejects blank text) |
| Text.TrimEnds | src/components/TagInput.tsx:40 | a trimmed non-empty string neither starts nor ends with white space |
| Text.TrimDropsLeadingSpace | src/components/CategoryManagement.tsx:140-155 | white space in front of an already trimmed non-empty name is removed by `trim` |
| Text.ContainsSelf | src/components/TagInput.tsx:67 | every string includes itself and the empty string (an empty query matches everything) |
| Text.ToLower | src/components/TagInput.tsx:67 | `toLowerCase` keeps the length and lowers each character in place |
| Text.Split | src/components/CategoryManagement.tsx:153 | `split` on a character class gives at least one piece and no piece holds a separator |
| Text.SplitAfterPiece | src/components/CategoryManagement.tsx:153 | a separator-free piece followed by a separator splits off as one piece |
| Text.SplitFree | src/components/CategoryManagement.tsx:153 | a string without separators is a single piece |
| Text.NatToString | src/components/RecurringManager.tsx:30-31 | `String(n)` is a non-empty digit string without leading zeros that denotes `n` |
| Text.PadStart | src/components/RecurringManager.tsx:30-31 | `padStart(width, "0")` is at least `width` characters long |
| Text.PadStartValue | src/components/RecurringManager.tsx:30-31 | zero padding is all digits and keeps the value |
| Text.LexLtIrreflexive | src/components/BudgetStatusCard.tsx:61-62 | no string is below itself under JavaScript's string `<` |
| Text.LexLtTransitive | src/components/BudgetStatusCard.tsx:61-62 | string `<` is transitive |
| Text.LexLeTransitive | src/components/BudgetStatusCard.tsx:61-62 | string `<=` is transitive |
| Text.LexLePrefix | src/components/MonthlyAnalysis.tsx:34-36 | cutting two ordered strings to the same length keeps them in order |
| Text.LexTrichotomy | src/components/SmartInsights.tsx:16 | of `a < b`, `a == b`, `b < a` exactly one holds |
| Text.LexConcat | src/components/BudgetStatusCard.tsx:61-62 | two strings whose prefixes have equal length compare by the prefixes first, then by the rest |
| Text.Prefix | src/components/TagInput.tsx:126 | `slice(0, n)` is the first `min(n, length)` elements |
| TransactionsList.EmptyQueryMatchesAll | src/components/TransactionsList.tsx:38-40 | the empty search text matches every transaction |
| TransactionsList.Shown | src/components/TransactionsList.tsx:36-55 | a transaction is shown exactly when it is in the list and matches the search text (description, category or non-empty subcategory, ignoring case), the category, the type and the date range |
| TransactionsList.ClearedListShowsAll | src/components/TransactionsList.tsx:30-55 | in the initial state (empty search, every filter `all`, no dates), to which clearing returns, the whole list is shown in order |
| TransactionsList.Dates | src/components/TransactionsList.tsx:60 | one date per transaction, in list order |
| TransactionsList.GroupKeys | src/components/TransactionsList.tsx:59-66 | the group keys have no duplicates and are exactly the dates that occur |
| TransactionsList.GroupByDate | src/components/TransactionsList.tsx:58-67 | the `reduce` yields the dates in order of first appearance and, for each of them and no other, the transactions of that date in list order |
| TransactionsList.GroupMapMeaning | src/components/TransactionsList.tsx:59-66 | the object built holds exactly the dates that occur, each with its group |
| TransactionsList.DatesSnoc | src/components/TransactionsList.tsx:61-63 | one more transaction adds its date to the keys exactly when it is new |
| TransactionsList.PrefixStep | src/components/TransactionsList.tsx:60-65 | one more transaction of the list: the keys grow as above and its date's array gains it, created empty first when missing |
| TransactionsList.GroupMapKeys | src/components/TransactionsList.tsx:61-63 | the object's keys are the dates that occur |
| TransactionsList.GroupMapGroups | src/components/TransactionsList.tsx:64 | each array of the object is the group of its date |
| TransactionsList.GroupEmpty | src/components/TransactionsList.tsx:59-66 | a date no transaction carries has an empty group |
| TransactionsList.GroupSizesSum | src/components/TransactionsList.tsx:59-66 | the sizes of the groups add up to the number of transactions shown |
| TransactionsList.GroupsPartition | src/components/TransactionsList.tsx:59-66 | every transaction is in the group of its own date, and a group holds only transactions of its date |
| TransactionsList.SortedDates | src/components/TransactionsList.tsx:69-71 | the headings are a permutation of the dates, latest first |
| TrendChart.TotalSnoc | src/components/TrendChart.tsx:38-48 | one more transaction adds its amount to every sum whose filter keeps it |
| TrendChart.FlowIsSums | src/components/TrendChart.tsx:43-47 | a month's income is the sum of its income transactions, and its expense the sum of all its other transactions |
| TrendChart.FlowPartitionsMonth | src/components/TrendChart.tsx:43-47 | a month's income and expense together are the total of all its transactions |
| TrendChart.FlowSnoc | src/components/TrendChart.tsx:39-47 | one more transaction changes only its own month's figures |
| TrendChart.MapSnoc | src/components/TrendChart.tsx:39 | one more transaction appends its month key |
| TrendChart.DistinctSnoc | src/components/TrendChart.tsx:40-42 | one more key is appended to the distinct keys exactly when it is new |
| TrendChart.FreshMonthEmpty | src/components/TrendChart.tsx:40-42 | a month that no transaction so far falls in starts at zero income and expense |
| TrendChart.BucketKeysStep | src/components/TrendChart.tsx:40-42 | after one more transaction the keys are the months in order of first occurrence |
| TrendChart.BucketStep | src/components/TrendChart.tsx:39-47 | one step of the `forEach` keeps the buckets right: the months in first-occurrence order, each with its own figures |
| TrendChart.MonthlyData | src/components/TrendChart.tsx:36-48 | the `forEach` yields exactly the months that occur, in first-occurrence order, each with its income and expense |
| TrendChart.InsertKey | src/components/TrendChart.tsx:51 | inserting a key into an ascending list keeps it ascending and adds exactly that key |
| TrendChart.BelowAll | src/components/TrendChart.tsx:51 | a key no larger than the head may go in front of an ascending list |
| TrendChart.HeadBelowRest | src/components/TrendChart.tsx:51 | a head no larger than the inserted key stays in front after the insertion |
| TrendChart.SortKeys | src/components/TrendChart.tsx:51 | the default `sort()` yields a permutation of the keys in ascending string order |
| TrendChart.LatestMonths | src/components/TrendChart.tsx:51 | the months shown number as many as the months up to six, are ascending, are all months of the data, and every month left out is earlier than every month shown |
| TrendChart.DistinctSorted | src/components/TrendChart.tsx:51 | a sorted copy of keys without repeats has no two equal positions |
| TrendChart.MonthNumber | src/components/TrendChart.tsx:54-56 | a month index taken from the key is always between 1 and 12 |
| TrendChart.LabelOfMonthKey | src/components/TrendChart.tsx:54-56 | a `YYYY-MM` key with a month from 01 to 12 yields that month's number, hence its Persian name |
| TrendChart.DigitsDashFree | src/components/TrendChart.tsx:54 | digits contain no dash |
| TrendChart.SplitKey | src/components/TrendChart.tsx:54 | splitting `YYYY-MM` at dashes yields the year and the month |
| TrendChart.LabelWithoutDash | src/components/TrendChart.tsx:54-56 | a key without a dash keeps its own text as label |
| TrendChart.PointsFor | src/components/TrendChart.tsx:53-60 | one point per month, in order, each with its label and figures |
| TrendChart.ShownAreKeys | src/components/TrendChart.tsx:51 | every month shown is one of the keys |
| TrendChart.PointsFromBuckets | src/components/TrendChart.tsx:53-60 | reading the figures from the filled buckets gives each month's own figures |
| TrendChart.TrendData | src/components/TrendChart.tsx:34-61 | the memoised computation yields the points of the six latest months, ascending, with their labels and figures |
| TrendChart.ShownMonthsCount | src/components/TrendChart.tsx:51 | at most six months are shown, and none exactly when there are no transactions |
| TrendChart.PointsAddUp | src/components/TrendChart.tsx:53-60 | each point's income and expense add up to all of its month's transactions |
| TrendChart.TrendDataShape | src/components/TrendChart.tsx:34-61 | at most six points, none exactly when there are no transactions, each month's income and expense adding up to all its transactions |
| Widgets.LoadWidgets | src/hooks/useDashboardWidgets.ts:7-17 | the initial list is the current contents of `defaultWidgets` when the key is missing, empty or malformed, the stored list when it parses to a list, and no usable list when it parses to something else |
| Widgets.Toggle | src/hooks/useDashboardWidgets.ts:23-27 | same length; every widget is unchanged except its `enabled` flag, which flips exactly for the widgets with that id |
| Widgets.ToggleTwice | src/hooks/useDashboardWidgets.ts:23-27 | toggling the same id twice gives back the list |
| Widgets.MoveWidget | src/hooks/useDashboardWidgets.ts:29-46 | the updater returns the sorted copy with the widget's `order` exchanged with its neighbour's in the given direction, unchanged at the ends, and fails for an unknown id moved down |
| Widgets.MoveInSorted | src/hooks/useDashboardWidgets.ts:32-44 | on the sorted copy, the index lookup and the exchange through a temporary give the specified move |
| Widgets.ExchangeOrders | src/hooks/useDashboardWidgets.ts:35-41 | swaps the `order` fields of two entries of the array in place, nothing else changes |
| Widgets.MoveKeepsWidgets | src/hooks/useDashboardWidgets.ts:29-46 | a move keeps every widget apart from its `order`, and the `order` values are a permutation of the old ones |
| Widgets.MoveSortedKeeps | src/hooks/useDashboardWidgets.ts:34-42 | the exchange on the sorted copy changes only `order` fields and permutes their values |
| Widgets.SwapKeepsOrders | src/hooks/useDashboardWidgets.ts:35-41 | one exchange permutes the `order` values and changes nothing else |
| Widgets.OrdersPermuted | src/hooks/useDashboardWidgets.ts:31 | sorting (a permutation of the widgets) permutes the `order` values |
| Widgets.MoveAtEndsChangesNothing | src/hooks/useDashboardWidgets.ts:34-42 | moving the first widget up or the last one down returns the sorted list unchanged |
| Widgets.MoveUnknown | src/hooks/useDashboardWidgets.ts:32-42 | an id that is not in a non-empty list fails when moved down (index -1 reads `sorted[-1]`) and changes nothing when moved up |
| Widgets.DefaultCells | src/hooks/useDashboardWidgets.ts:16 | a state that is the array `defaultWidgets` itself holds that array's fields, each object at its own position |
| Widgets.FreshCells | src/hooks/useDashboardWidgets.ts:11 | the objects `JSON.parse` makes hold the stored fields, each with its own new identity |
| Widgets.ToggleCells | src/hooks/useDashboardWidgets.ts:23-27 | toggling on objects gives the fields `Toggle` gives; a toggled widget is a fresh copy and every other object is kept |
| Widgets.SwapCellOrders | src/hooks/useDashboardWidgets.ts:35-41 | the exchange written into two objects gives the fields `SwapOrders` gives and keeps every object's identity |
| Widgets.MoveCells | src/hooks/useDashboardWidgets.ts:29-45 | the updater on objects fails exactly when `MoveResult` does, otherwise yields the fields `MoveResult` gives, and holds the same objects as before |
| Widgets.MoveSortedCells | src/hooks/useDashboardWidgets.ts:34-44 | the exchange on the sorted objects gives the fields `MoveSorted` gives and keeps their identities in place |
| Widgets.SortValues | src/hooks/useDashboardWidgets.ts:31 | sorting the objects by `order` sorts their fields exactly as sorting the fields would |
| Widgets.InsertValues | src/hooks/useDashboardWidgets.ts:31 | one insertion step on objects inserts their fields the same way |
| Widgets.FindIndexValues | src/hooks/useDashboardWidgets.ts:32 | looking the id up among the objects gives the same position as among their fields |
| Widgets.MapPermuted | src/hooks/useDashboardWidgets.ts:31 | the copy that `sort` reorders holds the same objects: a permutation maps to a permutation of the images |
| Widgets.DistinctPermuted | src/hooks/useDashboardWidgets.ts:31 | reordering a list of distinct objects leaves them distinct |
| Widgets.SortedShares | src/hooks/useDashboardWidgets.ts:31 | the sorted copy holds the same distinct objects, the shared ones still agreeing with `defaultWidgets` |
| Widgets.ExchangeWrites | src/hooks/useDashboardWidgets.ts:35-41 | after the two writes, the shared objects of the new state agree with `defaultWidgets`, and every array object outside the state keeps its fields |
| Widgets.MoveDefaults | src/hooks/useDashboardWidgets.ts:35-41 | the exchange's two writes as seen through `defaultWidgets`; the array keeps its length, and `ExchangeWrites` and `MoveShares` state what the writes do to it |
| Widgets.SortedDefaults | src/hooks/useDashboardWidgets.ts:34-41 | the same writes for the position the lookup found; the array keeps its length |
| Widgets.SortedMoveShares | src/hooks/useDashboardWidgets.ts:34-44 | on the sorted copy, the exchange keeps the objects distinct, its `defaultWidgets` objects agree with that array, and the array's other objects keep their fields |
| Widgets.FailedMoveWritesNothing | src/hooks/useDashboardWidgets.ts:32-40 | an updater that throws has written into no `defaultWidgets` object |
| Widgets.MoveShares | src/hooks/useDashboardWidgets.ts:29-45 | after any move the state's objects stay distinct, its `defaultWidgets` objects agree with that array, and the array's other objects keep their fields |
| Widgets.WriteThrough | src/hooks/useDashboardWidgets.ts:36-37 | a write into an object changes the array `defaultWidgets` exactly at that object's position when it is one of the array's own |
| Widgets.WidgetBoard.constructor | src/hooks/useDashboardWidgets.ts:7-21 | the hook starts with the loaded list and writes it back to storage at once. Starting from the defaults, the state is the array `defaultWidgets` itself; a stored list gives fresh objects |
| Widgets.WidgetBoard.Shown | src/hooks/useDashboardWidgets.ts:52-55 | the exposed list is ascending by `order` and a permutation of the state |
| Widgets.WidgetBoard.ToggleWidget | src/hooks/useDashboardWidgets.ts:19-27 | the state becomes the toggled objects, with the fields `Toggle` gives; `defaultWidgets` is untouched and storage holds the list |
| Widgets.WidgetBoard.Move | src/hooks/useDashboardWidgets.ts:19-46 | the state and storage take the moved list, and the exchanged `order` values are also written into `defaultWidgets` wherever the state holds its objects; an updater that throws leaves everything as it was |
| Widgets.WidgetBoard.Commit | src/hooks/useDashboardWidgets.ts:19-21 | `setWidgets` with the updater's array: the state takes it, `defaultWidgets` holds what the writes left, the invariant holds, and the effect stores the list |
| Widgets.WidgetBoard.ResetWidgets | src/hooks/useDashboardWidgets.ts:48-50 | the state becomes the array `defaultWidgets` itself, with whatever earlier moves wrote into it, and storage holds it |
| Widgets.ResetShowsDefaults | src/types/expense.ts:50-56 | before any move has written into its objects, `defaultWidgets` is exposed in its own order |
| Widgets.SortByHead | src/hooks/useDashboardWidgets.ts:52 | sorting a non-empty list inserts its head into its sorted tail |
| Widgets.InsertFront | src/hooks/useDashboardWidgets.ts:52 | an element not above the head of a sorted list goes in front of it |
| Widgets.InsertPast | src/hooks/useDashboardWidgets.ts:52 | an element above the head of a sorted list goes behind that head |
| Widgets.SortSecondFirst | src/hooks/useDashboardWidgets.ts:52 | a list whose tail is sorted, with its head belonging between the second and third elements, sorts with its first two exchanged |
| Widgets.MoveFirstDown | src/hooks/useDashboardWidgets.ts:29-45 | moving down the first object of an array in strictly ascending `order` exchanges the `order` of its first two objects |
| Widgets.SwappedFirstShown | src/hooks/useDashboardWidgets.ts:52 | after that exchange the array is exposed with its first two widgets exchanged |
| Widgets.SharedInPlace | src/hooks/useDashboardWidgets.ts:48-50 | when the state holds each `defaultWidgets` object at its own position, the array holds exactly the state's fields |
| Widgets.MoveFirstDefaultDown | src/hooks/useDashboardWidgets.ts:29-45 | while the state is `defaultWidgets` itself, moving its first widget down rewrites the `order` of that array's first two objects |
| Widgets.ResetMoveFirstReset | src/hooks/useDashboardWidgets.ts:29-50 | reset, move the first default widget down, reset: the array `defaultWidgets` now has its first two `order` values exchanged, and the second reset shows those two widgets exchanged |
| Widgets.ResetMoveReset | src/hooks/useDashboardWidgets.ts:29-50 | at page load, reset, move `balance` down, reset: the dashboard shows `spending-chart` first, then `balance`, not the declared order |
| Widgets.DefaultWidgetsAscending | src/types/expense.ts:50-56 | `defaultWidgets` as declared has strictly ascending `order` and starts with `balance` at 0 and `spending-chart` at 1 |
| Widgets.ReloadAfterWrite | src/hooks/useDashboardWidgets.ts:7-21 | what a change writes is what the next mount reads back, as fresh objects |

## Left out

- Rendering, navigation, toasts, dialogs, animation and every network call are left out. A backend call is assumed to succeed; its local effect on the list is what is modelled.
- React state is modelled as if each update is applied at once. Batched and stale-closure updates are not modelled.
- Time zones are not modelled. Dates are the `YYYY-MM-DD` text the code compares; `new Date(text)` is read as that calendar day, and only the exact four-digit-year form parses. Any other text is an invalid date, so `toISOString` fails (`None`).
- The Jalali (Persian) calendar display and `toLocaleDateString` formatting are left out. Only the Persian month-name table of the trend chart is modelled.
- The clock and identifier generation are parameters. This covers `now`, `todayYMD`'s current date, `Date.now()` and `crypto.randomUUID()`.
- Recurring.CatchUpAll: the date step is a parameter; the app passes `Advance`, which is proved separately. This keeps the calendar arithmetic out of the catch-up proofs.
- Recurring.CatchUpTemplate: the inner loop advances a local copy of the template and writes it back afterwards. Nothing reads the array slot in between, so this equals the source's update through an alias.
- Recurring.AddMonthsKeepsDay: excludes a target year of 0. In that year the lookup `new Date(0, m, 0)` reads 1900; `Recurring.AddMonthsYearZero` states what happens then.
- Floating-point numbers are exact reals or integers. Amounts are whole currency units. Rounding, `NaN` and `Infinity` appear only where the code depends on them:
  - a budget text without a digit is `None`, for `NaN`;
  - a weekly budget that would be `NaN` or `-Infinity` is 0;
  - a subcategory share over a zero total is `None`.
- `parseInt` and `parseFloat` are modelled on plain decimal digits. The `0x` prefix, exponents and signs other than a leading minus are left out.
- BackupRestore.NumberOfText: reads only decimal integers with an optional sign. Fractions, exponents, `0x`, `0b`, `0o` and `Infinity` text are read as `NaN` (`None`).
- `toLowerCase` maps ASCII letters only. Password length counts characters, not UTF-16 code units.
- The order of JavaScript object keys is taken as first insertion. Integer-like keys, which JavaScript lists first, are not modelled.
- `JSON.parse` and `JSON.stringify` are abstract. Text the application wrote parses back to what it wrote; the parse of any other text is a parameter.
- Widgets.LoadWidgets: returns `None` for stored JSON that is not an array. The hook would keep that value and fail at its first spread.
- Reminders.LoadDismissed: returns `None` for stored JSON that is not an array. The hook would keep that value: `dismissed.includes` would then fail, or match substrings when the value is a string. It also returns `None` for stored text that is not JSON at all, where `JSON.parse` throws while the hook mounts.
- Widgets.WidgetBoard.Move: an unknown id moved down makes the updater throw. React reports that error while rendering; the model keeps the state as it was.
- React's development-mode double call of state updaters is not modelled. It would run `moveWidget`'s in-place writes twice.
- AdvancedSearch.DateKey: an unparsable date gets the key 0, the key of 1 January of year 0, so it sorts with the earliest dates. In the source `getTime()` is `NaN`, and the comparator leaves the order to the engine. `TransactionsList` orders its date groups by the same key.
- `b.amount \|\| 0` in `SmartInsights` is the amount itself, since amounts are numbers. The comparator's order between transactions of the same date is modelled as stable.
- `MonthlyAnalysis`: the previous month is the calendar month before. The local-time shift of `toISOString` is not modelled, and the unused `daysProgress` is left out.
- BackupRestore.DebtStep: uses one `now` for both the created and the updated timestamp. The source reads the clock twice, a few microseconds apart.
- The goal-transaction log (`saving_goal_transactions` inserts) and the row-level mapping of that table are left out. Only the goal's own amount is modelled.
- The spreadsheet, PDF and CSV export and the XLSX import are left out: they are file-format glue around the JSON backup, which is modelled.
- AddTransaction.AddTransactionForm.Submit: requires the submit button to be enabled. The source disables the button otherwise, so the handler is not reachable.
