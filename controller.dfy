/** The interaction controller: the one budget state of the page, held by a session
    object, and the state change each user action performs. Persisting, recomputing
    and re-rendering after each change are left to the view. */
module Controller {
  import opened Wrappers
  import opened BudgetModel
  import opened PlanCalculator
  import opened ExpenseList
  import opened StateStore

  class BudgetSession {
    var incomeAmount: real
    var incomeFrequency: Cadence
    var savingsTarget: real
    var expenses: seq<Expense>

    /** The state as a value, as the plan calculator and the store see it. */
    function State(): BudgetState
      reads this
    {
      BudgetState(incomeAmount, incomeFrequency, savingsTarget, expenses)
    }

    /** Expense ids are unique within the list. This is not a well-formedness
        condition: a stored blob may hold duplicate ids, so start-up cannot establish
        it and no handler requires it; every handler preserves it. */
    ghost predicate UniqueExpenseIds()
      reads this
    {
      UniqueIds(expenses)
    }

    /** Page start-up: the state is whatever loadState makes of the stored blob. */
    constructor (stored: Option<Decoded>)
      ensures State() == LoadState(stored)
    {
      var s := LoadState(stored);
      incomeAmount, incomeFrequency, savingsTarget, expenses :=
        s.incomeAmount, s.incomeFrequency, s.savingsTarget, s.expenses;
    }

    /** setFrequency: switch the income frequency; nothing else changes. */
    method SetFrequency(freq: Cadence)
      modifies this
      ensures State() == old(State()).(incomeFrequency := freq)
      ensures old(UniqueExpenseIds()) ==> UniqueExpenseIds()
    {
      incomeFrequency := freq;
    }

    /** The income form's submit: both fields are re-read through parseMoney. */
    method SubmitIncome(incomeInput: Option<real>, savingsInput: Option<real>)
      modifies this
      ensures State() == old(State()).(incomeAmount := ParseMoney(incomeInput),
                                       savingsTarget := ParseMoney(savingsInput))
      ensures old(UniqueExpenseIds()) ==> UniqueExpenseIds()
    {
      incomeAmount := ParseMoney(incomeInput);
      savingsTarget := ParseMoney(savingsInput);
    }

    /** addExpense: append a record under the fresh id `id` (the browser's random
        UUID), taking "", 0 and monthly for the fields the caller leaves out. */
    method AddExpense(id: string, name: Option<string>, amount: Option<real>, cadence: Option<Cadence>)
      requires id !in Ids(expenses)
      modifies this
      ensures State() == old(State()).(expenses := old(expenses) +
                [Expense(id, name.GetOr(""), amount.GetOr(0.0), cadence.GetOr(Monthly))])
      ensures old(UniqueExpenseIds()) ==> UniqueExpenseIds()
    {
      var e := Expense(id, name.GetOr(""), amount.GetOr(0.0), cadence.GetOr(Monthly));
      assert forall i :: 0 <= i < |expenses| ==> expenses[i] in expenses;
      expenses := expenses + [e];
    }

    /** removeExpense: keep the records whose id differs from `id`. */
    method RemoveExpense(id: string)
      modifies this
      ensures State() == old(State()).(expenses := Without(old(expenses), id))
      ensures old(UniqueExpenseIds()) ==> UniqueExpenseIds()
    {
      ghost var before := expenses;
      expenses := Without(expenses, id);
      if UniqueIds(before) {
        WithoutKeepsUnique(before, id);
      }
    }

    /** The name input of a row: rename the first record with that id, if any. */
    method EditName(id: string, name: string)
      modifies this
      ensures FindIndex(old(expenses), id).None? ==> State() == old(State())
      ensures FindIndex(old(expenses), id).Some? ==>
                var k := FindIndex(old(expenses), id).value;
                State() == old(State()).(expenses := old(expenses)[k := old(expenses)[k].(name := name)])
      ensures old(UniqueExpenseIds()) ==> UniqueExpenseIds()
    {
      var found := FindIndex(expenses, id);
      if found.Some? {
        var k := found.value;
        expenses := expenses[k := expenses[k].(name := name)];
      }
    }

    /** The amount input of a row: the first record with that id takes the parsed
        amount, if there is such a record. */
    method EditAmount(id: string, input: Option<real>)
      modifies this
      ensures FindIndex(old(expenses), id).None? ==> State() == old(State())
      ensures FindIndex(old(expenses), id).Some? ==>
                var k := FindIndex(old(expenses), id).value;
                State() == old(State()).(expenses := old(expenses)[k := old(expenses)[k].(amount := ParseMoney(input))])
      ensures old(UniqueExpenseIds()) ==> UniqueExpenseIds()
    {
      var found := FindIndex(expenses, id);
      if found.Some? {
        var k := found.value;
        expenses := expenses[k := expenses[k].(amount := ParseMoney(input))];
      }
    }

    /** The cadence select of a row: the first record with that id takes the new
        cadence, if there is such a record. */
    method EditCadence(id: string, cadence: Cadence)
      modifies this
      ensures FindIndex(old(expenses), id).None? ==> State() == old(State())
      ensures FindIndex(old(expenses), id).Some? ==>
                var k := FindIndex(old(expenses), id).value;
                State() == old(State()).(expenses := old(expenses)[k := old(expenses)[k].(cadence := cadence)])
      ensures old(UniqueExpenseIds()) ==> UniqueExpenseIds()
    {
      var found := FindIndex(expenses, id);
      if found.Some? {
        var k := found.value;
        expenses := expenses[k := expenses[k].(cadence := cadence)];
      }
    }

    /** loadSample: replace the whole state with the sample budget; `ids` are the
        five fresh UUIDs of its rows. */
    method LoadSample(ids: seq<string>)
      requires |ids| == 5
      requires forall i, j :: 0 <= i < j < 5 ==> ids[i] != ids[j]
      modifies this
      ensures State() == SampleState(ids)
      ensures UniqueExpenseIds()
    {
      var s := SampleState(ids);
      incomeAmount, incomeFrequency, savingsTarget, expenses :=
        s.incomeAmount, s.incomeFrequency, s.savingsTarget, s.expenses;
    }
  }

  /** Adding a record under a fresh id gives a list one longer whose last record is
      the new one, whose earlier records are unchanged in place, and whose ids stay
      unique. */
  lemma {:induction false} AppendFreshRecord(es: seq<Expense>, e: Expense)
    requires e.id !in Ids(es)
    ensures |es + [e]| == |es| + 1
    ensures (es + [e])[|es|] == e
    ensures forall i :: 0 <= i < |es| ==> (es + [e])[i] == es[i]
    ensures UniqueIds(es) ==> UniqueIds(es + [e])
  {
    assert forall i :: 0 <= i < |es| ==> es[i] in es;
  }

  /** The add button's blank record (empty name, amount 0, monthly) leaves every
      figure of the plan as it was. */
  lemma {:induction false} AddingBlankKeepsPlan(s: BudgetState, id: string)
    ensures ComputePlan(s.(expenses := s.expenses + [Expense(id, "", 0.0, Monthly)])) == ComputePlan(s)
  {
    var e := Expense(id, "", 0.0, Monthly);
    MonthlyExpensesAppend(s.expenses, [e]);
    MonthlyExpensesSingle(e);
  }

  /** With unique ids, removing a record lowers monthly expenses by exactly that
      record's monthly figure. */
  lemma {:induction false} RemovalLowersExpenses(es: seq<Expense>, k: nat)
    requires UniqueIds(es)
    requires k < |es|
    ensures MonthlyExpenses(Without(es, es[k].id)) == MonthlyExpenses(es) - MonthlyAmount(es[k])
  {
    MonthlyExpensesSplit(es, k);
    WithoutUnique(es, es[k].id, k);
    MonthlyExpensesAppend(es[..k], es[k + 1..]);
  }

  /** Renaming a record changes no figure of the plan. */
  lemma {:induction false} RenameKeepsPlan(s: BudgetState, k: nat, name: string)
    requires k < |s.expenses|
    ensures ComputePlan(s.(expenses := s.expenses[k := s.expenses[k].(name := name)])) == ComputePlan(s)
  {
    MonthlyExpensesUpdate(s.expenses, k, s.expenses[k].(name := name));
  }
}
