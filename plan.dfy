/** The plan calculator: a total, pure map from the budget state to the eleven
    derived figures shown in the summary panel. */
module PlanCalculator {
  import opened BudgetModel

  datatype Plan = Plan(
    monthlyIncome: real,
    weeklyIncome: real,
    monthlyExpenses: real,
    weeklyExpenses: real,
    monthlySavingsGoal: real,
    weeklySavingsGoal: real,
    monthlyLeftover: real,
    weeklyLeftover: real,
    needsPercent: real,
    wantsPercent: real,
    savingsPercent: real)

  /** `Math.min` of two reals. */
  function Min(a: real, b: real): (r: real)
    ensures r <= a && r <= b
    ensures r == a || r == b
  {
    if a <= b then a else b
  }

  /** `Math.max` of two reals. */
  function Max(a: real, b: real): (r: real)
    ensures r >= a && r >= b
    ensures r == a || r == b
  {
    if a >= b then a else b
  }

  /** One expense as a monthly figure: weekly entries are scaled up, monthly ones kept. */
  function MonthlyAmount(e: Expense): (m: real)
    ensures e.cadence == Monthly ==> m == e.amount
    ensures e.cadence == Weekly ==> m * MONTHLY_TO_WEEKLY == e.amount
    ensures e.amount >= 0.0 ==> m >= 0.0
  {
    if e.cadence == Weekly then e.amount * WEEKLY_TO_MONTHLY else e.amount
  }

  /** The `reduce` over the expense list: a left fold that adds each entry's monthly
      figure to the running sum, starting from 0. */
  function MonthlyExpenses(es: seq<Expense>): (total: real)
    ensures (forall i :: 0 <= i < |es| ==> es[i].amount >= 0.0) ==> total >= 0.0
    ensures es == [] ==> total == 0.0
  {
    if es == [] then 0.0
    else MonthlyExpenses(es[..|es| - 1]) + MonthlyAmount(es[|es| - 1])
  }

  /** The fold over a concatenation is the sum of the folds over both parts. */
  lemma {:induction false} MonthlyExpensesAppend(a: seq<Expense>, b: seq<Expense>)
    ensures MonthlyExpenses(a + b) == MonthlyExpenses(a) + MonthlyExpenses(b)
    decreases |b|
  {
    if b == [] {
      assert a + b == a;
    } else {
      var b' := b[..|b| - 1];
      assert (a + b)[..|a + b| - 1] == a + b';
      assert (a + b)[|a + b| - 1] == b[|b| - 1];
      MonthlyExpensesAppend(a, b');
    }
  }

  /** A single-entry list totals that entry's monthly figure. */
  lemma {:induction false} MonthlyExpensesSingle(e: Expense)
    ensures MonthlyExpenses([e]) == MonthlyAmount(e)
  {
    assert [e][..0] == [];
  }

  /** The total splits around any position: the records before it, the record at
      it, and the records after it. */
  lemma {:induction false} MonthlyExpensesSplit(es: seq<Expense>, k: nat)
    requires k < |es|
    ensures MonthlyExpenses(es) == MonthlyExpenses(es[..k]) + MonthlyAmount(es[k]) + MonthlyExpenses(es[k + 1..])
  {
    var pre, x, post := es[..k], es[k], es[k + 1..];
    calc {
      MonthlyExpenses(es);
      { assert es == (pre + [x]) + post; }
      MonthlyExpenses((pre + [x]) + post);
      { MonthlyExpensesAppend(pre + [x], post); }
      MonthlyExpenses(pre + [x]) + MonthlyExpenses(post);
      { MonthlyExpensesSnoc(pre, x); }
      MonthlyExpenses(pre) + MonthlyAmount(x) + MonthlyExpenses(post);
    }
  }

  /** Appending one record adds its monthly figure to the total (one step of the fold). */
  lemma {:induction false} MonthlyExpensesSnoc(es: seq<Expense>, e: Expense)
    ensures MonthlyExpenses(es + [e]) == MonthlyExpenses(es) + MonthlyAmount(e)
  {
    assert (es + [e])[..|es|] == es;
  }

  /** Replacing the record at `k` changes the total by exactly the difference of the
      two records' monthly figures; the rest of the list contributes as before. */
  lemma {:induction false} MonthlyExpensesUpdate(es: seq<Expense>, k: nat, e: Expense)
    requires k < |es|
    ensures MonthlyExpenses(es[k := e]) == MonthlyExpenses(es) - MonthlyAmount(es[k]) + MonthlyAmount(e)
  {
    var es' := es[k := e];
    assert es'[..k] == es[..k];
    assert es'[k + 1..] == es[k + 1..];
    MonthlyExpensesSplit(es, k);
    MonthlyExpensesSplit(es', k);
  }

  /** A monthly figure scaled to a week and back is unchanged (the factors are exact
      reciprocals over the reals). */
  lemma WeeklyRoundTrip(x: real)
    ensures (x * MONTHLY_TO_WEEKLY) * WEEKLY_TO_MONTHLY == x
  {
    calc {
      (x * MONTHLY_TO_WEEKLY) * WEEKLY_TO_MONTHLY;
      x * (MONTHLY_TO_WEEKLY * WEEKLY_TO_MONTHLY);
      x * 1.0;
    }
  }

  /** `part` as a percentage of `whole`, capped at 150, and 0 when `whole` is 0 (the
      shape shared by needsPercent and savingsPercent). */
  function CappedPercent(part: real, whole: real): (r: real)
    ensures r <= 150.0
    ensures whole == 0.0 ==> r == 0.0
    ensures whole != 0.0 && (part / whole) * 100.0 < 150.0 ==> r == (part / whole) * 100.0
    ensures whole != 0.0 && (part / whole) * 100.0 >= 150.0 ==> r == 150.0
    ensures part >= 0.0 && whole >= 0.0 ==> r >= 0.0
  {
    if whole != 0.0 then Min(150.0, (part / whole) * 100.0) else 0.0
  }

  /** What is left of 100 after needs and savings, clamped into [0, 150]. */
  function WantsPercent(needs: real, savings: real): (r: real)
    ensures 0.0 <= r <= 150.0
    ensures 0.0 <= 100.0 - needs - savings <= 150.0 ==> needs + r + savings == 100.0
    ensures 100.0 - needs - savings < 0.0 ==> r == 0.0
    ensures 100.0 - needs - savings > 150.0 ==> r == 150.0
    ensures needs >= 0.0 && savings >= 0.0 ==> r <= 100.0
  {
    Max(0.0, Min(150.0, 100.0 - needs - savings))
  }

  /** computePlan: monthly and weekly views of income, expenses, goal and leftover,
      and the needs/wants/savings split of monthly income. Its percentage caps and
      clamps are stated here; the relations between the two views are the lemmas
      below. */
  function ComputePlan(s: BudgetState): (p: Plan)
    ensures p.needsPercent <= 150.0 && p.savingsPercent <= 150.0
    ensures 0.0 <= p.wantsPercent <= 150.0
    ensures p.monthlyIncome == 0.0 ==>
              p.needsPercent == 0.0 && p.savingsPercent == 0.0 && p.wantsPercent == 100.0
    // the three shares add up to 100 unless wants had to be clamped
    ensures 0.0 <= 100.0 - p.needsPercent - p.savingsPercent <= 150.0 ==>
              p.needsPercent + p.wantsPercent + p.savingsPercent == 100.0
    ensures 100.0 - p.needsPercent - p.savingsPercent < 0.0 ==> p.wantsPercent == 0.0
    ensures 100.0 - p.needsPercent - p.savingsPercent > 150.0 ==> p.wantsPercent == 150.0
  {
    var income := s.incomeAmount;
    var monthlyIncome := if s.incomeFrequency == Monthly then income else income * WEEKLY_TO_MONTHLY;
    var weeklyIncome := if s.incomeFrequency == Weekly then income else income * MONTHLY_TO_WEEKLY;
    var monthlyExpenses := MonthlyExpenses(s.expenses);
    var weeklyExpenses := monthlyExpenses * MONTHLY_TO_WEEKLY;
    var monthlySavingsGoal := s.savingsTarget;
    var weeklySavingsGoal := monthlySavingsGoal * MONTHLY_TO_WEEKLY;
    var monthlyLeftover := monthlyIncome - monthlyExpenses - monthlySavingsGoal;
    var weeklyLeftover := weeklyIncome - weeklyExpenses - weeklySavingsGoal;
    var needsPercent := CappedPercent(monthlyExpenses, monthlyIncome);
    var savingsPercent := CappedPercent(monthlySavingsGoal, monthlyIncome);
    var wantsPercent := WantsPercent(needsPercent, savingsPercent);
    Plan(monthlyIncome, weeklyIncome, monthlyExpenses, weeklyExpenses,
         monthlySavingsGoal, weeklySavingsGoal, monthlyLeftover, weeklyLeftover,
         needsPercent, wantsPercent, savingsPercent)
  }

  /** Needs and savings are expenses and goal as a percentage of monthly income,
      except that a share of 150 or more is reported as 150. */
  lemma SharesOfIncome(s: BudgetState)
    ensures var p := ComputePlan(s);
            p.monthlyIncome != 0.0 ==>
              var needs, savings := (p.monthlyExpenses / p.monthlyIncome) * 100.0,
                                    (p.monthlySavingsGoal / p.monthlyIncome) * 100.0;
              && (needs < 150.0 ==> p.needsPercent == needs)
              && (needs >= 150.0 ==> p.needsPercent == 150.0)
              && (savings < 150.0 ==> p.savingsPercent == savings)
              && (savings >= 150.0 ==> p.savingsPercent == 150.0)
  {
  }

  /** Income is taken as entered in its own period and converted for the other one;
      the two income figures always agree under the weekly-to-monthly factor. */
  lemma IncomeConversion(s: BudgetState)
    ensures s.incomeFrequency == Monthly ==>
              ComputePlan(s).monthlyIncome == s.incomeAmount &&
              ComputePlan(s).weeklyIncome == s.incomeAmount * MONTHLY_TO_WEEKLY
    ensures s.incomeFrequency == Weekly ==>
              ComputePlan(s).weeklyIncome == s.incomeAmount &&
              ComputePlan(s).monthlyIncome == s.incomeAmount * WEEKLY_TO_MONTHLY
    ensures ComputePlan(s).weeklyIncome * WEEKLY_TO_MONTHLY == ComputePlan(s).monthlyIncome
  {
    WeeklyRoundTrip(s.incomeAmount);
  }

  /** Expenses are the fold over the list, the goal is the target, leftover is what
      income leaves after both, and every weekly figure is its monthly one scaled by
      12/52 (weekly leftover included, although it is computed from weekly parts). */
  lemma WeeklyViewIsScaledMonthly(s: BudgetState)
    ensures ComputePlan(s).monthlyExpenses == MonthlyExpenses(s.expenses)
    ensures ComputePlan(s).monthlySavingsGoal == s.savingsTarget
    ensures ComputePlan(s).monthlyLeftover ==
              ComputePlan(s).monthlyIncome - ComputePlan(s).monthlyExpenses - ComputePlan(s).monthlySavingsGoal
    ensures ComputePlan(s).weeklyExpenses * WEEKLY_TO_MONTHLY == ComputePlan(s).monthlyExpenses
    ensures ComputePlan(s).weeklySavingsGoal * WEEKLY_TO_MONTHLY == ComputePlan(s).monthlySavingsGoal
    ensures ComputePlan(s).weeklyLeftover == ComputePlan(s).monthlyLeftover * MONTHLY_TO_WEEKLY
  {
    var p := ComputePlan(s);
    WeeklyRoundTrip(p.monthlyExpenses);
    WeeklyRoundTrip(p.monthlySavingsGoal);
    IncomeConversion(s);
    if s.incomeFrequency == Weekly {
      calc {
        p.monthlyLeftover * MONTHLY_TO_WEEKLY;
        (s.incomeAmount * WEEKLY_TO_MONTHLY - p.monthlyExpenses - p.monthlySavingsGoal) * MONTHLY_TO_WEEKLY;
        (s.incomeAmount * WEEKLY_TO_MONTHLY) * MONTHLY_TO_WEEKLY
          - p.monthlyExpenses * MONTHLY_TO_WEEKLY - p.monthlySavingsGoal * MONTHLY_TO_WEEKLY;
        s.incomeAmount * (WEEKLY_TO_MONTHLY * MONTHLY_TO_WEEKLY)
          - p.weeklyExpenses - p.weeklySavingsGoal;
        p.weeklyLeftover;
      }
    }
  }

  /** With non-negative inputs the needs and savings shares are non-negative, so the
      wants share never exceeds 100. */
  lemma NonNegativeShares(s: BudgetState)
    requires NonNegative(s)
    ensures ComputePlan(s).needsPercent >= 0.0
    ensures ComputePlan(s).savingsPercent >= 0.0
    ensures ComputePlan(s).wantsPercent <= 100.0
  {
    var p := ComputePlan(s);
    assert p.monthlyIncome >= 0.0;
    assert p.monthlyExpenses >= 0.0;
  }

  /** The worked example: the sample budget totals 2510 a month in expenses and leaves
      1390 after the 300 savings goal. */
  lemma {:induction false} SamplePlan(ids: seq<string>)
    requires |ids| == 5
    ensures ComputePlan(SampleState(ids)).monthlyExpenses == 2510.0
    ensures ComputePlan(SampleState(ids)).monthlyLeftover == 1390.0
  {
    var es := SampleState(ids).expenses;
    MonthlyExpensesSplit(es, 2);
    assert es[..2] == [es[0]] + [es[1]];
    MonthlyExpensesAppend([es[0]], [es[1]]);
    MonthlyExpensesSingle(es[0]);
    MonthlyExpensesSingle(es[1]);
    assert es[3..] == [es[3]] + [es[4]];
    MonthlyExpensesAppend([es[3]], [es[4]]);
    MonthlyExpensesSingle(es[3]);
    MonthlyExpensesSingle(es[4]);
  }
}
