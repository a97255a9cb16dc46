# DailyBudget core, modelled in Dafny

A model of the budget logic of the DailyBudget iOS app and its home-screen widget.

- `budget.dfy` (module `Budget`) models the app's `BudgetModel`. It holds a daily budget figure
  that every assignment after `init` writes through to the standard `UserDefaults` store under
  `"balance"`. `init` reads that figure back and writes nothing. An append-only list of expenses is kept beside it. The remaining
  budget is the figure less the sum of the expense amounts.
- `widget.dfy` (module `Widget`) models the widget's timeline `Provider` and its `SimpleEntry`.
  - `placeholder` shows zeros.
  - `loadEntry` reads `"dailyBudget"` and `"remainingDays"` from the app-group store.
  - `getTimeline` builds the present entry plus 24 more, one every 15 minutes, with the
    `.atEnd` reload policy.
  - `calculateRemainingDays` counts the days left in the month, today included.
- `storage.dfy` (module `Storage`) models a `UserDefaults` suite as a class over a map from keys to
  numbers. A missing key reads as 0. `integer(forKey:)` truncates the stored number toward zero.
- `clock.dfy` (module `Clock`) models `Date` as whole seconds. Adding minutes moves an instant by
  60 seconds per minute.
- `wrappers.dfy` (module `Wrappers`) holds `Option`.

The proved core of the ledger is about sums:
- `Total` is the sum of the amounts.
- The source's `reduce` left fold (`ReduceAmounts`) computes exactly that sum.
- Appending an expense raises the sum by exactly its amount.
- Any permutation of the expenses has the same sum.

The widget's `getTimeline` loop is proved against its specification: 25 entries, dates 15 minutes
apart after the start, and every entry carrying the stored figures.
`calculateRemainingDays` is proved to be the size of the set of days from today to the month's
last day.

Only expenses are recorded, and any amount, including zero and negative ones, is accepted.
Nothing in the code divides the budget into a per-day allowance, and nothing resets the ledger
when a month ends.

`calculateRemainingDays` is private and has no caller in the source. The widget takes
`"remainingDays"` from the store instead. It is modelled all the same.

## Model

| member | source | states |
|---|---|---|
| `Clock.AddingMinutes` | DailyBudgetWidgetExtension/DailyBudgetWidgetExtension.swift:33 | adding `m` minutes moves the instant by exactly `60*m` seconds, forward when `m > 0` |
| `Storage.TruncateTowardZero` | DailyBudgetWidgetExtension/DailyBudgetWidgetExtension.swift:44 | the integer read of a stored number drops the fraction toward zero: within one below a non-negative number, within one above a negative one |
| `Storage.UserDefaults.SetDouble` | DailyBudgetApp-Xcode/BudgetModel.swift:6 | after storing `v` under a key, reading that key gives `v` back and every other key reads as before |
| `Budget.ReduceIsTotal` | DailyBudgetApp-Xcode/BudgetModel.swift:28 | the `reduce` left fold started at `acc` yields `acc` plus the sum of all expense amounts |
| `Budget.TotalOfConcat` | DailyBudgetApp-Xcode/BudgetModel.swift:28 | the sum over two lists joined is the sum of the two sums |
| `Budget.TotalAfterAppend` | DailyBudgetApp-Xcode/BudgetModel.swift:22-28 | appending one expense raises the sum of amounts by exactly its amount |
| `Budget.TotalWithout` | DailyBudgetApp-Xcode/BudgetModel.swift:28 | removing the expense at index `i` lowers the sum by its amount and removes one occurrence of it from the multiset |
| `Budget.TotalIsOrderIndependent` | DailyBudgetApp-Xcode/BudgetModel.swift:28 | two lists that are permutations of each other (equal multisets) have the same sum |
| `Budget.RemainingBudget` | DailyBudgetApp-Xcode/BudgetModel.swift:27-30 | budget less the fold of amounts equals budget less the sum of amounts, and equals the budget when there are no expenses |
| `Budget.RemainingAfterExpense` | DailyBudgetApp-Xcode/BudgetModel.swift:22-30 | recording an expense of amount `a` lowers the remaining budget by exactly `a` |
| `Budget.RemainingIsOrderIndependent` | DailyBudgetApp-Xcode/BudgetModel.swift:27-30 | the remaining budget is the same for any order of the expenses |
| `Budget.BudgetModel.constructor` | DailyBudgetApp-Xcode/BudgetModel.swift:9-13 | the budget is what the store holds under "balance" (0 if nothing), expenses start empty, and the stored balance mirrors the budget |
| `Budget.BudgetModel.SetDailyBudget` | DailyBudgetApp-Xcode/BudgetModel.swift:4-8 | assigning `v` sets the budget to `v`, writes `v` under "balance" and changes no other key, leaves the expenses alone, and keeps the stored balance mirroring the budget |
| `Budget.BudgetModel.AddExpense` | DailyBudgetApp-Xcode/BudgetModel.swift:22-25 | exactly one expense with the given amount, description and date is appended with all earlier ones kept; budget and store unchanged; remaining budget falls by exactly the amount |
| `Budget.BudgetModel.AddParsedExpense` | DailyBudgetApp-Xcode/ContentView.swift:77-78 | an amount text that does not parse records nothing; a parsed one appends exactly that expense; the budget is unchanged |
| `Budget.BudgetModel.CalculateRemainingBudget` | DailyBudgetApp-Xcode/BudgetModel.swift:27-30 | a read-only function: budget less the sum of all expense amounts |
| `Budget.BudgetSurvivesRelaunch` | DailyBudgetApp-Xcode/BudgetModel.swift:4-13 | setting the budget to `v` and then creating a fresh model on the same store reads `v` back, with no expenses and `v` remaining |
| `Widget.Provider.constructor` | DailyBudgetWidgetExtension/DailyBudgetWidgetExtension.swift:13 | the provider reads the app-group suite when it opens, the standard store otherwise |
| `Widget.Provider.Placeholder` | DailyBudgetWidgetExtension/DailyBudgetWidgetExtension.swift:15-17 | the placeholder shows budget 0 and 0 remaining days whatever the store holds |
| `Widget.Provider.LoadEntry` | DailyBudgetWidgetExtension/DailyBudgetWidgetExtension.swift:42-46 | an entry carries the given date, the number stored under "dailyBudget" and the integer stored under "remainingDays" (0 when missing) |
| `Widget.Provider.GetSnapshot` | DailyBudgetWidgetExtension/DailyBudgetWidgetExtension.swift:19-22 | the snapshot is the entry `loadEntry` builds for `now`: dated `now`, carrying the stored budget and remaining days |
| `Widget.Provider.GetTimeline` | DailyBudgetWidgetExtension/DailyBudgetWidgetExtension.swift:24-40 | 25 entries with policy `.atEnd`; the first is the snapshot; entry `i >= 1` is dated `start + 15*i` minutes, so those dates strictly increase; every entry carries the stored budget and remaining days |
| `Widget.DayRangeMembers` | DailyBudgetWidgetExtension/DailyBudgetWidgetExtension.swift:54-56 | a day is in the range `first..last` exactly when it lies between the two ends |
| `Widget.DayRangeSize` | DailyBudgetWidgetExtension/DailyBudgetWidgetExtension.swift:54-56 | the range `first..last` holds `last - first + 1` days |
| `Widget.Provider.CalculateRemainingDays` | DailyBudgetWidgetExtension/DailyBudgetWidgetExtension.swift:50-57 | the result is the number of days from today to the month's end, today included; it lies in `[1, daysInMonth]`, is `daysInMonth` on day 1 and 1 on the last day |
| `Widget.NextDayHasOneDayFewer` | DailyBudgetWidgetExtension/DailyBudgetWidgetExtension.swift:56 | moving on one day within the month removes exactly that day from the remaining days, and the count falls by exactly 1 |

## Left out

- Amounts are `real`. IEEE `Double` rounding in the fold and the subtraction is not modelled, so
  the exact-sum and order-independence results hold for the mathematical sum only.
- Non-finite amounts (NaN, plus and minus infinity) are not modelled. `Double(String)` accepts
  texts such as "nan" and "inf", so the app can record such an amount. From then on the remaining
  budget is NaN or infinite, and "falls by exactly the amount" and order independence no longer
  hold for it.
- Expense identifiers (`UUID()`) are not modelled. Nothing in the ledger logic reads them.
- `Date()` and `Calendar.current` are parameters. The clock readings are `now`, `firstDate` and
  `start`. The calendar's day of month and month length are `currentDay` and `daysInMonth`. Dates
  are whole seconds, so sub-second precision is not modelled.
- `UserDefaults` holds numbers only. Strings, booleans and other property-list values, and the
  conversions Foundation applies to them, are not modelled. Opening the app-group suite is the
  input `suite`.
- Widget.Provider.GetTimeline: the store is taken as unchanged while the timeline is built. The
  source reads it 25 times, and another process could write to it between two reads.
- Widget.Provider.GetTimeline and GetSnapshot: the completion callbacks become return values.
  The `context` argument is ignored, as in the source.
- Nothing is claimed linking the app and the widget. The app writes `"balance"` to the standard
  store, while the widget reads `"dailyBudget"` and `"remainingDays"` from the app-group suite.
  No code shown keeps these keys in sync.
- SwiftUI is not modelled: the views, the green/red colour of the remaining budget, currency
  formatting, the widget configuration and the previews. `Double(String)` parsing is the input
  of `AddParsedExpense`.
- Font registration and the custom font extensions are not modelled. They are CoreText and file
  lookups with no budget logic.
- The app and widget-bundle entry points (`@main`) are not modelled.
- Swift `Int` is 64 bits wide. The model's remaining-days integers are unbounded.
