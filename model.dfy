/** The budget state: income, its frequency, the monthly savings target and the
    ordered list of recurring expenses, together with the two conversion factors. */
module BudgetModel {

  /** Factor that turns a weekly amount into a monthly one (52 weeks over 12 months). */
  const WEEKLY_TO_MONTHLY: real := 52.0 / 12.0
  /** Factor that turns a monthly amount into a weekly one. */
  const MONTHLY_TO_WEEKLY: real := 12.0 / 52.0

  /** How often an amount recurs: the income frequency and each expense's cadence. */
  datatype Cadence = Monthly | Weekly

  /** One recurring expense; `id` correlates the record with its row on screen. */
  datatype Expense = Expense(id: string, name: string, amount: real, cadence: Cadence)

  /** The single persisted entity. `savingsTarget` is a monthly goal. */
  datatype BudgetState = BudgetState(
    incomeAmount: real,
    incomeFrequency: Cadence,
    savingsTarget: real,
    expenses: seq<Expense>)

  /** The state used when nothing usable is stored. */
  const DEFAULT_STATE: BudgetState := BudgetState(0.0, Monthly, 0.0, [])

  /** The demonstration budget loaded by the "load sample" action; `ids` are the five
      fresh identifiers the browser generates for its rows. */
  function SampleState(ids: seq<string>): (s: BudgetState)
    requires |ids| == 5
    ensures s.incomeAmount == 4200.0 && s.incomeFrequency == Monthly && s.savingsTarget == 300.0
    ensures |s.expenses| == 5
    ensures forall i :: 0 <= i < 5 ==> s.expenses[i].id == ids[i]
  {
    BudgetState(4200.0, Monthly, 300.0, [
      Expense(ids[0], "Rent", 1600.0, Monthly),
      Expense(ids[1], "Groceries", 120.0, Weekly),
      Expense(ids[2], "Transit", 90.0, Monthly),
      Expense(ids[3], "Eating out", 60.0, Weekly),
      Expense(ids[4], "Streaming", 40.0, Monthly)])
  }

  /** Every entered figure is non-negative (what the form's `min="0"` asks for; the
      code itself does not enforce it). */
  predicate NonNegative(s: BudgetState) {
    && s.incomeAmount >= 0.0
    && s.savingsTarget >= 0.0
    && forall i :: 0 <= i < |s.expenses| ==> s.expenses[i].amount >= 0.0
  }
}
