/** The state store's load side: merging a stored blob over the default state, and
    the money-input parse rule. Reading the blob and decoding its JSON are done by
    the browser; here they arrive already decoded. */
module StateStore {
  import opened Wrappers
  import opened BudgetModel

  /** The top-level fields of a decoded blob; a field the blob lacks is None. */
  datatype SavedFields = SavedFields(
    incomeAmount: Option<real>,
    incomeFrequency: Option<Cadence>,
    savingsTarget: Option<real>,
    expenses: Option<seq<Expense>>)

  /** What decoding a non-empty stored blob gives: the object's fields, or Malformed
      when the text is not JSON or decodes to null (reading `.expenses` of null
      throws, which the load recovers from in the same way). */
  datatype Decoded = Parsed(fields: SavedFields) | Malformed

  /** loadState. `stored` is None when nothing (or the empty string) is stored. A
      missing blob or a failed decode gives the default state; otherwise every field
      the blob has wins over the default, and a missing expense list becomes empty. */
  function LoadState(stored: Option<Decoded>): (s: BudgetState)
    ensures stored.None? || stored == Some(Malformed) ==> s == DEFAULT_STATE
    ensures stored.Some? && stored.value.Parsed? ==>
              var f := stored.value.fields;
              && (f.incomeAmount.Some? ==> s.incomeAmount == f.incomeAmount.value)
              && (f.incomeAmount.None? ==> s.incomeAmount == DEFAULT_STATE.incomeAmount)
              && (f.incomeFrequency.Some? ==> s.incomeFrequency == f.incomeFrequency.value)
              && (f.incomeFrequency.None? ==> s.incomeFrequency == DEFAULT_STATE.incomeFrequency)
              && (f.savingsTarget.Some? ==> s.savingsTarget == f.savingsTarget.value)
              && (f.savingsTarget.None? ==> s.savingsTarget == DEFAULT_STATE.savingsTarget)
              && (f.expenses.Some? ==> s.expenses == f.expenses.value)
              && (f.expenses.None? ==> s.expenses == [])
  {
    match stored
    case None => DEFAULT_STATE
    case Some(Malformed) => DEFAULT_STATE
    case Some(Parsed(f)) =>
      BudgetState(
        f.incomeAmount.GetOr(DEFAULT_STATE.incomeAmount),
        f.incomeFrequency.GetOr(DEFAULT_STATE.incomeFrequency),
        f.savingsTarget.GetOr(DEFAULT_STATE.savingsTarget),
        f.expenses.GetOr([]))
  }

  /** The fields persistState writes: every field of the state. */
  function SavedState(s: BudgetState): (f: SavedFields)
    ensures f.incomeAmount.Some? && f.incomeFrequency.Some?
    ensures f.savingsTarget.Some? && f.expenses.Some?
  {
    SavedFields(Some(s.incomeAmount), Some(s.incomeFrequency), Some(s.savingsTarget), Some(s.expenses))
  }

  /** Saving and loading again gives back the same state, every expense record
      (id, name, amount, cadence) included. */
  lemma SaveLoadRoundTrip(s: BudgetState)
    ensures LoadState(Some(Parsed(SavedState(s)))) == s
  {
  }

  /** A blob that is an empty object loads as the default state. */
  lemma EmptyObjectLoadsDefault()
    ensures LoadState(Some(Parsed(SavedFields(None, None, None, None)))) == DEFAULT_STATE
  {
  }

  /** parseMoney. `input` is what `parseFloat` makes of the text: None for NaN. A
      failed parse reads as 0; anything `parseFloat` accepts, negative values
      included, is kept. */
  function ParseMoney(input: Option<real>): (r: real)
    ensures input.None? ==> r == 0.0
    ensures input.Some? ==> r == input.value
  {
    input.GetOr(0.0)
  }
}
