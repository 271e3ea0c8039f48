/** The insight rules: a fixed sequence of threshold checks over the plan, each of
    which may add one advisory note; at most four notes are shown. */
module InsightRules {
  import opened BudgetModel
  import opened PlanCalculator

  /** The advisory notes, one tag per message; the over-budget note carries the
      monthly shortfall (shown as currency on screen). */
  datatype Note =
    | AddIncome
    | Short(shortfall: real)
    | Thin
    | Room
    | NeedsOverGuideline
    | DirectToSavings
    | StartWithEssentials

  /** How many notes the insights list shows. */
  const MAX_NOTES: nat := 4

  /** `Math.abs`. */
  function Abs(x: real): (r: real)
    ensures r >= 0.0 && (r == x || r == -x)
  {
    if x < 0.0 then -x else x
  }

  /** The three mutually exclusive leftover notes. */
  predicate IsLeftoverNote(n: Note) {
    n.Short? || n.Thin? || n.Room?
  }

  /** Position of each rule in the fixed evaluation order (the three leftover notes
      come from one rule). */
  function Rank(n: Note): nat {
    match n
    case AddIncome => 0
    case Short(_) => 1
    case Thin => 1
    case Room => 1
    case NeedsOverGuideline => 2
    case DirectToSavings => 3
    case StartWithEssentials => 4
  }

  /** The leftover rule: short when leftover is negative, thin when it is below 5% of
      income, otherwise room to manoeuvre. */
  function LeftoverNote(p: Plan): (n: Note)
    ensures IsLeftoverNote(n)
    ensures n.Short? <==> p.monthlyLeftover < 0.0
    ensures n.Short? ==> n.shortfall > 0.0 && n.shortfall == -p.monthlyLeftover
    ensures n == Thin <==> 0.0 <= p.monthlyLeftover < p.monthlyIncome * 0.05
    ensures n == Room <==> 0.0 <= p.monthlyLeftover && p.monthlyIncome * 0.05 <= p.monthlyLeftover
  {
    if p.monthlyLeftover < 0.0 then Short(Abs(p.monthlyLeftover))
    else if p.monthlyLeftover < p.monthlyIncome * 0.05 then Thin
    else Room
  }

  /** The note each rule contributes: empty when the rule does not fire. */
  function IncomeRule(p: Plan): seq<Note> {
    if p.monthlyIncome == 0.0 then [AddIncome] else []
  }

  function NeedsRule(p: Plan): seq<Note> {
    if p.needsPercent > 60.0 then [NeedsOverGuideline] else []
  }

  function SavingsRule(p: Plan): seq<Note> {
    if p.savingsPercent < 10.0 && p.monthlyLeftover > 0.0 then [DirectToSavings] else []
  }

  function EssentialsRule(expenseCount: nat): seq<Note> {
    if expenseCount == 0 then [StartWithEssentials] else []
  }

  /** Every note whose rule fires, in rule order, before the list is cut to four. */
  function Candidates(p: Plan, expenseCount: nat): (c: seq<Note>)
    ensures (if p.monthlyIncome == 0.0 then 2 else 1) <= |c| <= 5
    ensures c[if p.monthlyIncome == 0.0 then 1 else 0] == LeftoverNote(p)
  {
    IncomeRule(p) + [LeftoverNote(p)] + NeedsRule(p) + SavingsRule(p) + EssentialsRule(expenseCount)
  }

  /** The notes shown: the first four candidates (`slice(0, 4)`). */
  function Insights(p: Plan, expenseCount: nat): (r: seq<Note>)
    ensures |r| <= MAX_NOTES && |r| <= |Candidates(p, expenseCount)|
    ensures r == Candidates(p, expenseCount)[..|r|]
    ensures |Candidates(p, expenseCount)| <= MAX_NOTES ==> r == Candidates(p, expenseCount)
    ensures |Candidates(p, expenseCount)| > MAX_NOTES ==> |r| == MAX_NOTES
  {
    var c := Candidates(p, expenseCount);
    if |c| <= MAX_NOTES then c else c[..MAX_NOTES]
  }

  /** The note-building part of renderInsights: successive pushes, then the cut. */
  method RenderInsights(p: Plan, expenseCount: nat) returns (shown: seq<Note>)
    ensures shown == Insights(p, expenseCount)
  {
    var notes: seq<Note> := [];
    if p.monthlyIncome == 0.0 {
      notes := notes + [AddIncome];
    }
    assert notes == IncomeRule(p);
    if p.monthlyLeftover < 0.0 {
      notes := notes + [Short(Abs(p.monthlyLeftover))];
    } else if p.monthlyLeftover < p.monthlyIncome * 0.05 {
      notes := notes + [Thin];
    } else {
      notes := notes + [Room];
    }
    assert notes == IncomeRule(p) + [LeftoverNote(p)];
    if p.needsPercent > 60.0 {
      notes := notes + [NeedsOverGuideline];
    }
    ghost var upToNeeds := notes;
    assert notes == IncomeRule(p) + [LeftoverNote(p)] + NeedsRule(p);
    if p.savingsPercent < 10.0 && p.monthlyLeftover > 0.0 {
      notes := notes + [DirectToSavings];
    }
    assert notes == upToNeeds + SavingsRule(p);
    ghost var upToSavings := notes;
    if expenseCount == 0 {
      notes := notes + [StartWithEssentials];
    }
    assert notes == upToSavings + EssentialsRule(expenseCount);
    shown := if |notes| <= MAX_NOTES then notes else notes[..MAX_NOTES];
  }

  /** Notes appear in strictly increasing rule order. */
  predicate InRuleOrder(ns: seq<Note>) {
    forall i, j :: 0 <= i < j < |ns| ==> Rank(ns[i]) < Rank(ns[j])
  }

  /** The shown notes keep the fixed rule order: no rule's note comes before that of an
      earlier rule, and no rule contributes twice. */
  lemma RuleOrder(p: Plan, expenseCount: nat)
    ensures InRuleOrder(Insights(p, expenseCount))
  {
    var c := Candidates(p, expenseCount);
    assert InRuleOrder(c) by {
      var a, b, d, e := IncomeRule(p), NeedsRule(p), SavingsRule(p), EssentialsRule(expenseCount);
      forall i, j | 0 <= i < j < |c| ensures Rank(c[i]) < Rank(c[j]) {
        AtRank(a, b, d, e, LeftoverNote(p), i);
        AtRank(a, b, d, e, LeftoverNote(p), j);
      }
    }
    var r := Insights(p, expenseCount);
    assert forall i :: 0 <= i < |r| ==> r[i] == c[i];
  }

  /** Rank of the note at position `i` of a rule-ordered concatenation: it grows with
      the number of pieces before `i`. */
  lemma AtRank(a: seq<Note>, b: seq<Note>, d: seq<Note>, e: seq<Note>, m: Note, i: nat)
    requires a == [] || a == [AddIncome]
    requires IsLeftoverNote(m)
    requires b == [] || b == [NeedsOverGuideline]
    requires d == [] || d == [DirectToSavings]
    requires e == [] || e == [StartWithEssentials]
    requires i < |a + [m] + b + d + e|
    ensures Rank((a + [m] + b + d + e)[i]) ==
              if i < |a| then 0
              else if i == |a| then 1
              else if i < |a| + 1 + |b| then 2
              else if i < |a| + 1 + |b| + |d| then 3
              else 4
  {
  }

  /** Exactly one of the three leftover notes is shown: the leftover rule's, right
      after the income prompt if there is one. */
  lemma ExactlyOneLeftoverNote(p: Plan, expenseCount: nat)
    ensures var r := Insights(p, expenseCount);
            var k := if p.monthlyIncome == 0.0 then 1 else 0;
            && k < |r| && r[k] == LeftoverNote(p)
            && forall j :: 0 <= j < |r| && j != k ==> !IsLeftoverNote(r[j])
  {
    RuleOrder(p, expenseCount);
    var r := Insights(p, expenseCount);
    var k := if p.monthlyIncome == 0.0 then 1 else 0;
    assert Candidates(p, expenseCount)[k] == LeftoverNote(p);
    forall j | 0 <= j < |r| && j != k ensures !IsLeftoverNote(r[j]) {
      assert Rank(r[j]) != Rank(r[k]);
    }
  }

  /** The add-income prompt comes first exactly when monthly income is 0, and then at
      least one more note (the leftover note) follows it. */
  lemma IncomePromptFirst(p: Plan, expenseCount: nat)
    ensures var r := Insights(p, expenseCount);
            && (|r| > 0 && r[0] == AddIncome <==> p.monthlyIncome == 0.0)
            && (AddIncome in r <==> p.monthlyIncome == 0.0)
            && (p.monthlyIncome == 0.0 ==> |r| >= 2)
  {
    RuleOrder(p, expenseCount);
    ExactlyOneLeftoverNote(p, expenseCount);
    var r := Insights(p, expenseCount);
    assert forall j :: 0 <= j < |r| && r[j] == AddIncome ==> j == 0 && p.monthlyIncome == 0.0;
  }

  /** For a plan that computePlan produced at most four rules fire, because zero
      income forces the needs share to 0: the cut to four never drops a note. */
  lemma CutNeverDrops(s: BudgetState)
    ensures |Candidates(ComputePlan(s), |s.expenses|)| <= MAX_NOTES
    ensures Insights(ComputePlan(s), |s.expenses|) == Candidates(ComputePlan(s), |s.expenses|)
  {
    var p := ComputePlan(s);
    assert p.monthlyIncome == 0.0 ==> p.needsPercent == 0.0;
  }

  /** Each candidate note is there exactly when its rule's condition holds. */
  lemma CandidatesExactlyWhenRulesFire(p: Plan, expenseCount: nat)
    ensures var c := Candidates(p, expenseCount);
            && (AddIncome in c <==> p.monthlyIncome == 0.0)
            && (LeftoverNote(p) in c)
            && (NeedsOverGuideline in c <==> p.needsPercent > 60.0)
            && (DirectToSavings in c <==> p.savingsPercent < 10.0 && p.monthlyLeftover > 0.0)
            && (StartWithEssentials in c <==> expenseCount == 0)
  {
    var c := Candidates(p, expenseCount);
    var a, b, d, e := IncomeRule(p), NeedsRule(p), SavingsRule(p), EssentialsRule(expenseCount);
    assert forall n :: n in c <==> n in a || n == LeftoverNote(p) || n in b || n in d || n in e;
  }

  /** For a computed plan, each note is shown exactly when its rule's condition holds. */
  lemma NotesShownExactlyWhenRulesFire(s: BudgetState)
    ensures var p := ComputePlan(s);
            var r := Insights(p, |s.expenses|);
            && (AddIncome in r <==> p.monthlyIncome == 0.0)
            && (LeftoverNote(p) in r)
            && (NeedsOverGuideline in r <==> p.needsPercent > 60.0)
            && (DirectToSavings in r <==> p.savingsPercent < 10.0 && p.monthlyLeftover > 0.0)
            && (StartWithEssentials in r <==> s.expenses == [])
  {
    CutNeverDrops(s);
    CandidatesExactlyWhenRulesFire(ComputePlan(s), |s.expenses|);
  }

  /** The sample budget leaves plenty of room but saves under 10% of income. */
  lemma SampleInsights(ids: seq<string>)
    requires |ids| == 5
    ensures Insights(ComputePlan(SampleState(ids)), 5) == [Room, DirectToSavings]
  {
    SamplePlan(ids);
    var p := ComputePlan(SampleState(ids));
    assert p.needsPercent == (2510.0 / 4200.0) * 100.0;
    assert p.savingsPercent == (300.0 / 4200.0) * 100.0;
  }

  /** A fresh budget asks for income, has room (leftover 0 is not below 5% of 0) and
      suggests starting with essentials. */
  lemma DefaultInsights()
    ensures Insights(ComputePlan(DEFAULT_STATE), 0) == [AddIncome, Room, StartWithEssentials]
  {
  }
}
