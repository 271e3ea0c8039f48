# Budget calculator — a Dafny model

This project models the computational core of a single-screen personal budgeting
calculator (`script.js`). A user enters an income, either weekly or monthly. They also
enter a monthly savings target and a list of recurring expenses, each weekly or
monthly. From these the page derives:

- monthly and weekly figures for income, expenses, goal and leftover;
- a needs/wants/savings split of income;
- a short list of advisory notes.

Every change to the budget state is made by a user action. That state is persisted
and reloaded with defaults filled in.

The model has seven modules:

- `Wrappers`: `Option`, for absent fields and failed parses.
- `BudgetModel`: the state (`BudgetState`, `Expense`, `Cadence`). It also holds the two
  conversion factors 52/12 and 12/52, the default state and the sample budget.
- `PlanCalculator`: `computePlan` as the total function `ComputePlan`. The expense
  `reduce` becomes the left fold `MonthlyExpenses`.
- `InsightRules`: the note rules of `renderInsights`, as functions (`Candidates`,
  `Insights`) and as the push-by-push method `RenderInsights`. Each note is a tag of
  the datatype `Note`, and the over-budget tag carries the shortfall.
- `ExpenseList`: `find` by id (`FindIndex`) and `filter` by id (`Without`), with the
  lemmas that say what they keep.
- `StateStore`: the `loadState` merge over an already decoded blob, the persisted
  field record, and `parseMoney`.
- `Controller`: the page's single mutable state, as the class `BudgetSession` with a
  method per user action. Each method states the whole new state. All of them keep
  expense ids unique (`UniqueExpenseIds()`) when they were unique before, without
  requiring it.

All amounts are `real`, so the arithmetic is exact. In particular the two conversion
factors multiply to exactly 1 (`WeeklyRoundTrip`).

For any plan the calculator produces, at most four insight rules fire, because zero
income forces the needs share to 0. So the cut of the notes to four never drops a
note (`InsightRules.CutNeverDrops`).

## Model

| member | source | states |
|---|---|---|
| BudgetModel.SampleState | script.js:252-264 | the sample budget: income 4200 monthly, goal 300, and five expenses whose ids are the five supplied fresh ids, in order |
| PlanCalculator.MonthlyAmount | script.js:86-87 | a monthly expense counts as entered; a weekly one is scaled so that converting it back to a week gives the entered amount; non-negative amounts stay non-negative |
| PlanCalculator.MonthlyExpenses | script.js:85-88 | the fold over the list is 0 for no expenses and non-negative when every amount is non-negative |
| PlanCalculator.MonthlyExpensesAppend | script.js:85-88 | the total of a concatenation is the sum of the totals of its parts |
| PlanCalculator.MonthlyExpensesSnoc | script.js:85-88 | appending one record adds exactly its monthly figure to the total |
| PlanCalculator.MonthlyExpensesSingle | script.js:85-88 | a one-record list totals that record's monthly figure |
| PlanCalculator.MonthlyExpensesSplit | script.js:85-88 | the total is the total before position k, plus the record at k, plus the total after it |
| PlanCalculator.MonthlyExpensesUpdate | script.js:85-88 | replacing one record changes the total by exactly the difference of the two records' monthly figures |
| PlanCalculator.WeeklyRoundTrip | script.js:2-3 | a figure scaled by 12/52 and then by 52/12 is unchanged |
| PlanCalculator.CappedPercent | script.js:97-102 | the needs/savings share is at most 150, is 0 when income is 0, is exactly part/whole × 100 when that is below 150 and is 150 otherwise; it is non-negative for non-negative inputs |
| PlanCalculator.WantsPercent | script.js:103-106 | the wants share lies in [0, 150]; the three shares add up to 100 whenever 100 − needs − savings is in range; wants is 0 when it is negative and 150 when it exceeds 150 |
| PlanCalculator.ComputePlan | script.js:74-121 | needs and savings are at most 150 and wants lies in [0, 150]; zero monthly income gives needs = savings = 0 and wants = 100; the shares add up to 100 unless wants is clamped, to 0 below and to 150 above |
| PlanCalculator.SharesOfIncome | script.js:97-102 | for non-zero income, needs and savings are expenses and goal as percentages of monthly income when below 150, and 150 otherwise |
| PlanCalculator.IncomeConversion | script.js:75-83 | income is taken as entered in its own period and converted by 52/12 or 12/52 for the other; weekly income × 52/12 always equals monthly income |
| PlanCalculator.WeeklyViewIsScaledMonthly | script.js:85-95 | monthly expenses are the fold, the goal is the target, leftover = income − expenses − goal, and weekly expenses, goal and leftover are exactly the monthly ones × 12/52 |
| PlanCalculator.NonNegativeShares | script.js:97-106 | with non-negative inputs needs and savings are non-negative and wants is at most 100 |
| PlanCalculator.SamplePlan | script.js:252-264 | the sample budget's monthly expenses are 2510 and its monthly leftover is 1390 |
| InsightRules.LeftoverNote | script.js:194-203 | exactly one of short / thin / room: short iff leftover < 0, carrying the positive shortfall −leftover; thin iff 0 ≤ leftover < 5% of income; room otherwise |
| InsightRules.Candidates | script.js:190-213 | every firing rule's note, in rule order, before the cut: one to five notes (at least two when monthly income is 0), with the leftover rule's note right after the income prompt if there is one |
| InsightRules.Insights | script.js:189-216 | the shown notes are a prefix of the rule-ordered candidates: all of them when there are at most four, otherwise the first four |
| InsightRules.RenderInsights | script.js:189-216 | pushing one note per firing rule and cutting to four gives exactly `Insights` |
| InsightRules.RuleOrder | script.js:191-213 | the shown notes are in strictly increasing rule order, so no rule contributes twice |
| InsightRules.ExactlyOneLeftoverNote | script.js:194-203 | the leftover rule's note is always shown, right after the income prompt if there is one, and no other leftover note is shown |
| InsightRules.IncomePromptFirst | script.js:191-203 | the add-income prompt is shown, and is then first, iff monthly income is 0; in that case at least two notes are shown |
| InsightRules.CandidatesExactlyWhenRulesFire | script.js:191-213 | each rule's note is among the candidates iff its condition holds |
| InsightRules.CutNeverDrops | script.js:189-216 | for a plan from `ComputePlan` at most four rules fire, so the cut to four keeps every candidate |
| InsightRules.NotesShownExactlyWhenRulesFire | script.js:191-213 | for a computed plan each note is shown iff its rule's condition holds |
| InsightRules.SampleInsights | script.js:252-264 | the sample budget shows exactly "room to manoeuvre" and "direct leftover to savings" |
| InsightRules.DefaultInsights | script.js:31-36 | the default state shows the income prompt, "room to manoeuvre" and "start with essentials" |
| ExpenseList.FindIndex | script.js:296 | None iff no record has the id; otherwise the position of a record with that id, with no record before it having that id |
| ExpenseList.Without | script.js:246 | a record survives iff it was in the list and its id differs; the id no longer occurs |
| ExpenseList.WithoutAppend | script.js:246 | filtering distributes over concatenation, so survivors keep their relative order |
| ExpenseList.WithoutAbsent | script.js:246 | removing an id that no record has leaves the list unchanged |
| ExpenseList.WithoutUnique | script.js:245-246 | with unique ids, removing the id at position k gives the list with exactly that record cut out |
| ExpenseList.WithoutKeepsUnique | script.js:246 | removal keeps ids unique |
| StateStore.LoadState | script.js:40-50 | nothing stored or a failed decode gives the default state; otherwise each present field wins over the default and a missing expense list is empty |
| StateStore.SavedState | script.js:52-54 | the persisted record has every field present |
| StateStore.SaveLoadRoundTrip | script.js:40-54 | loading what was saved gives back the same state, every expense field included |
| StateStore.EmptyObjectLoadsDefault | script.js:45 | a stored empty object loads as the default state |
| StateStore.ParseMoney | script.js:69-72 | a failed parse reads as 0; any parsed number, negative ones included, is kept |
| Controller.BudgetSession.constructor | script.js:38-50 | the start-up state is `LoadState` of the stored blob |
| Controller.BudgetSession.SetFrequency | script.js:223-224 | only the income frequency changes |
| Controller.BudgetSession.SubmitIncome | script.js:278-281 | income and savings target become the parsed inputs (0 on a failed parse); nothing else changes; ids stay unique |
| Controller.BudgetSession.AddExpense | script.js:232-239 | the list gains one record at the end, under the fresh id, with "", 0, monthly for the fields the caller leaves out; the rest of the state is unchanged; unique ids stay unique |
| Controller.BudgetSession.RemoveExpense | script.js:245-246 | the list becomes `Without` of the old list; the rest of the state is unchanged; unique ids stay unique |
| Controller.BudgetSession.EditName | script.js:293-300 | with no record of that id nothing changes; otherwise only the name of the first such record changes |
| Controller.BudgetSession.EditAmount | script.js:293-304 | with no record of that id nothing changes; otherwise only the amount of the first such record changes, to the parsed input |
| Controller.BudgetSession.EditCadence | script.js:309-317 | with no record of that id nothing changes; otherwise only the cadence of the first such record changes |
| Controller.BudgetSession.LoadSample | script.js:252-264 | the whole state becomes the sample budget, whose five fresh ids are unique |
| Controller.AppendFreshRecord | script.js:232-239 | appending under a fresh id adds one to the length and puts the new record last; earlier records stay in place; unique ids stay unique |
| Controller.AddingBlankKeepsPlan | script.js:290 | adding the add button's blank record leaves every plan figure unchanged |
| Controller.RemovalLowersExpenses | script.js:245-246 | with unique ids, removing a record lowers monthly expenses by exactly its monthly figure |
| Controller.RenameKeepsPlan | script.js:299-300 | renaming a record changes no plan figure |

## Left out

- DOM access and rendering are not modelled: element lookups, `renderExpenses`, the text and bar-width writes of `updateSummaries`, list-item creation and the `syncForm` input writes. The figures their text shows come from the plan and notes modelled here, with two exceptions. First, the leftover label shows the weekly or the monthly leftover according to the income frequency. Second, when no savings goal is set, a suggested savings pace of max(0, 20% of monthly leftover) is shown. Both are display logic and neither is modelled.
- Event wiring is not modelled: the `addEventListener` bindings and the DOM lookups that find a row and its field. Each handler is modelled only by the state change it makes, as a method taking the row's id and the entered value.
- After every change the source persists the state, recomputes the plan and re-renders. That sequence is not modelled; `ComputePlan` and `Insights` are the recomputation.
- `persistState`, `localStorage`, `JSON.parse` and `JSON.stringify` are browser facilities. These calls and their failure logging are not modelled. `LoadState` receives an already decoded blob, and `SavedState` is the record that would be written.
- `crypto.randomUUID` is not modelled. Fresh ids are parameters: `AddExpense` requires an id not in the list, and `LoadSample` requires five distinct ids.
- `formatCurrency`, `toLocaleString`, `parseFloat` and the `Math.round` display are number formatting and parsing, so they are not modelled. Notes carry raw reals, not formatted text. `ParseMoney` receives `parseFloat`'s result as an `Option`, with None standing for NaN.
- IEEE-754 floating point is not modelled: NaN, `isFinite` and the inexact 52/12 × 12/52 product. Over the reals the two factors are exact reciprocals, so `WeeklyRoundTrip` and `WeeklyViewIsScaledMonthly` hold exactly, where the source only matches within rounding.
- JavaScript's `x || 0` coercion of a missing or NaN amount is not modelled, because amounts here are always reals.
- Untyped stored fields are not modelled. A blob edited by hand could hold a frequency or cadence string other than "monthly" or "weekly", an explicit `null` field, or a non-array truthy `expenses` value, and the code would keep any of these. Here the stored fields are typed, so only absent or present values exist. The code replaces only a falsy `expenses` value (missing, `null`, `0`, `""`, `false`) with the empty list; a truthy non-array value is kept.
- Non-object JSON is folded into `Malformed`. The code's `parsed.expenses` read throws on `null`, and the spread turns another non-object into defaults, so both end in the default state.
- The `input` event on a row element that is neither the name nor the amount field is not modelled. It changes nothing.
