/** src/screens/SpendingGoalsScreen.tsx: monthly budgets per spending category.
    The goal list is screen state that `addNewGoal` appends to and `deleteGoal`
    filters; the per-goal figures and the summary are computed from this month's
    spending by category. */
module SpendingGoals {
  import opened Wrappers
  import opened Types
  import JsText
  import JsNumber
  import opened AnalyticsService

  /** A budget goal. `spent` is fixed when the goal is made; the cards show the
      live figure from this month's spending instead. */
  datatype Goal = Goal(id: string, category: string, budget: real, spent: real, icon: string, color: string)

  const BankTransferCategory := "Bank Transfer"
  const DigitalTransferCategory := "Digital Transfer"

  /** The category a spending record counts toward. */
  function GoalCategory(t: Transaction): string {
    if t.kind == BankTransfer then BankTransferCategory else DigitalTransferCategory
  }

  /** A confirmed send or bank transfer dated in the given month. */
  predicate CountsThisMonth(t: Transaction, now: YearMonth) {
    InMonth(t, now) && IsSpending(t)
  }

  /** `map[category] || 0`. */
  function SpentOn(m: map<string, real>, category: string): (r: real)
    ensures category in m ==> r == m[category]
    ensures category !in m ==> r == 0.0
  {
    if category in m then m[category] else 0.0
  }

  /** `currentMonthSpending`: the `reduce` that adds each counted record's amount
      under its category, in list order. */
  function CategorySpending(ts: seq<Transaction>, now: YearMonth): (m: map<string, real>)
    ensures forall k :: k in m ==> k == BankTransferCategory || k == DigitalTransferCategory
    decreases |ts|
  {
    if ts == [] then map[]
    else
      var acc := CategorySpending(ts[..|ts| - 1], now);
      var t := ts[|ts| - 1];
      if CountsThisMonth(t, now) then acc[GoalCategory(t) := SpentOn(acc, GoalCategory(t)) + t.amount]
      else acc
  }

  function CategoryFilter(now: YearMonth, category: string): Transaction -> bool {
    t => CountsThisMonth(t, now) && GoalCategory(t) == category
  }

  /** The amount under a category is the sum of this month's counted records of
      that category; a category nobody spent on reads as 0. */
  lemma {:induction false} CategorySpendingIsSum(ts: seq<Transaction>, now: YearMonth, category: string)
    ensures SpentOn(CategorySpending(ts, now), category) == Sum(Where(ts, CategoryFilter(now, category)))
    decreases |ts|
  {
    var keep := CategoryFilter(now, category);
    if ts == [] {
    } else {
      var init, t := ts[..|ts| - 1], ts[|ts| - 1];
      assert ts == init + [t];
      CategorySpendingIsSum(init, now, category);
      WhereAppend(init, [t], keep);
      SumAppend(Where(init, keep), Where([t], keep));
      SumOfOne(t, keep);
    }
  }

  const ProgressRed := "#FF6B6B"
  const ProgressOrange := "#FF9800"
  const ProgressTeal := "#4ECDC4"

  /** `getProgressColor`: red from 100% of the budget, orange from 80%, teal below.
      A zero budget divides to Infinity (red) when something was spent, else to NaN
      or -Infinity (teal). */
  function ProgressColor(spent: real, budget: real): (color: string)
    ensures budget > 0.0 ==> (color == ProgressRed <==> spent >= budget)
    ensures budget > 0.0 ==> (color == ProgressOrange <==> budget * 0.8 <= spent < budget)
    ensures budget > 0.0 ==> (color == ProgressTeal <==> spent < budget * 0.8)
    ensures budget == 0.0 ==> (color == ProgressRed <==> spent > 0.0)
  {
    if budget == 0.0 then (if spent > 0.0 then ProgressRed else ProgressTeal)
    else
      var percentage := (spent / budget) * 100.0;
      PercentageScale(spent, budget);
      if percentage >= 100.0 then ProgressRed
      else if percentage >= 80.0 then ProgressOrange
      else ProgressTeal
  }

  lemma PercentageScale(spent: real, budget: real)
    requires budget != 0.0
    ensures budget > 0.0 ==> ((spent / budget) * 100.0 >= 100.0 <==> spent >= budget)
    ensures budget > 0.0 ==> ((spent / budget) * 100.0 >= 80.0 <==> spent >= budget * 0.8)
  {
    var q := spent / budget;
    assert q * budget == spent;
    if budget > 0.0 {
      assert q >= 1.0 <==> q * budget >= budget;
      assert (q - 0.8) * budget == spent - budget * 0.8;
      PositiveFactor(q - 0.8, budget);
    }
  }

  lemma PositiveFactor(x: real, b: real)
    requires b > 0.0
    ensures x >= 0.0 <==> x * b >= 0.0
  {
    if x < 0.0 {
      assert (-x) * b > 0.0;
    }
  }

  /** The figures one goal card shows. */
  datatype GoalCard = GoalCard(actualSpent: real, progress: real, remaining: real, isOverBudget: bool, color: string)

  /** `renderGoalCard`: the live spending of the goal's category (not `goal.spent`),
      the progress capped at 100%, the remaining budget floored at 0, and whether
      the goal is over budget. */
  function RenderGoalCard(goal: Goal, spending: map<string, real>): (c: GoalCard)
    requires goal.budget > 0.0
    ensures c.actualSpent == SpentOn(spending, goal.category)
    ensures c.progress <= 100.0
    ensures c.progress == 100.0 <==> c.actualSpent >= goal.budget
    ensures c.remaining >= 0.0
    ensures c.remaining == 0.0 <==> c.actualSpent >= goal.budget
    ensures c.isOverBudget <==> c.actualSpent > goal.budget
    ensures c.color == ProgressRed <==> c.actualSpent >= goal.budget
    ensures c.actualSpent < goal.budget ==>
      c.progress * goal.budget == c.actualSpent * 100.0 && c.remaining == goal.budget - c.actualSpent
  {
    var actualSpent := SpentOn(spending, goal.category);
    PercentageScale(actualSpent, goal.budget);
    assert (actualSpent / goal.budget) * 100.0 * goal.budget == actualSpent * 100.0;
    var progress := JsNumber.MathMin((actualSpent / goal.budget) * 100.0, 100.0);
    var remaining := JsNumber.MathMax(goal.budget - actualSpent, 0.0);
    GoalCard(actualSpent, progress, remaining, actualSpent > goal.budget, ProgressColor(actualSpent, goal.budget))
  }

  /** `goals.reduce((sum, goal) => sum + goal.budget, 0)`. */
  function TotalBudget(goals: seq<Goal>): (r: real)
    ensures PositiveBudgets(goals) ==> (r > 0.0 <==> goals != [])
  {
    if goals == [] then 0.0 else goals[0].budget + TotalBudget(goals[1..])
  }

  /** No category's tallied spending is negative. */
  predicate NonNegativeTally(spending: map<string, real>) {
    forall k :: k in spending ==> spending[k] >= 0.0
  }

  /** `goals.reduce((sum, goal) => sum + (currentMonthSpending[goal.category] || 0), 0)`. */
  function TotalSpent(goals: seq<Goal>, spending: map<string, real>): (r: real)
    ensures NonNegativeTally(spending) ==> r >= 0.0
    ensures (forall g :: g in goals ==> g.category !in spending) ==> r == 0.0
  {
    if goals == [] then 0.0 else SpentOn(spending, goals[0].category) + TotalSpent(goals[1..], spending)
  }

  /** Adding a goal raises the total budget by exactly its budget. */
  lemma {:induction false} TotalBudgetAppend(goals: seq<Goal>, goal: Goal)
    ensures TotalBudget(goals + [goal]) == TotalBudget(goals) + goal.budget
  {
    if goals != [] {
      assert (goals + [goal])[1..] == goals[1..] + [goal];
      TotalBudgetAppend(goals[1..], goal);
    }
  }

  /** Adding a goal raises the total spent by exactly that goal's category spending. */
  lemma {:induction false} TotalSpentAppend(goals: seq<Goal>, goal: Goal, spending: map<string, real>)
    ensures TotalSpent(goals + [goal], spending) == TotalSpent(goals, spending) + SpentOn(spending, goal.category)
  {
    if goals != [] {
      assert (goals + [goal])[1..] == goals[1..] + [goal];
      TotalSpentAppend(goals[1..], goal, spending);
    }
  }

  /** `renderOverallSummary`'s progress: 0 when there is no budget, else spent over budget in percent. */
  function OverallProgress(goals: seq<Goal>, spending: map<string, real>): (p: real)
    ensures TotalBudget(goals) <= 0.0 ==> p == 0.0
    ensures TotalBudget(goals) > 0.0 ==> p * TotalBudget(goals) == TotalSpent(goals, spending) * 100.0
  {
    var totalBudget := TotalBudget(goals);
    if totalBudget > 0.0 then (TotalSpent(goals, spending) / totalBudget) * 100.0 else 0.0
  }

  /** Goals with positive budgets have a positive total exactly when there is one. */
  lemma {:induction false} TotalBudgetPositive(goals: seq<Goal>)
    requires forall g :: g in goals ==> g.budget > 0.0
    ensures TotalBudget(goals) > 0.0 <==> goals != []
    ensures TotalBudget(goals) >= 0.0
  {
    if goals != [] {
      assert goals[0] in goals;
      assert forall g :: g in goals[1..] ==> g in goals;
      TotalBudgetPositive(goals[1..]);
    }
  }

  /** `goals.filter(goal => goal.id !== goalId)`. */
  function WithoutId(goals: seq<Goal>, goalId: string): (r: seq<Goal>)
    ensures forall g :: g in r <==> g in goals && g.id != goalId
    ensures |r| <= |goals|
  {
    if goals == [] then []
    else (if goals[0].id != goalId then [goals[0]] else []) + WithoutId(goals[1..], goalId)
  }

  /** Deleting distributes over concatenation, so the kept goals stay in order. */
  lemma {:induction false} WithoutIdAppend(a: seq<Goal>, b: seq<Goal>, goalId: string)
    ensures WithoutId(a + b, goalId) == WithoutId(a, goalId) + WithoutId(b, goalId)
    decreases |a|
  {
    if a == [] {
      assert a + b == b;
    } else {
      assert (a + b)[0] == a[0];
      assert (a + b)[1..] == a[1..] + b;
      WithoutIdAppend(a[1..], b, goalId);
    }
  }

  /** Deleting an id no goal has changes nothing. */
  lemma {:induction false} WithoutAbsentId(goals: seq<Goal>, goalId: string)
    requires forall g :: g in goals ==> g.id != goalId
    ensures WithoutId(goals, goalId) == goals
  {
    if goals != [] {
      assert goals[0] in goals;
      assert forall g :: g in goals[1..] ==> g in goals;
      WithoutAbsentId(goals[1..], goalId);
      assert [goals[0]] + goals[1..] == goals;
    }
  }

  const PrimaryColor := "#DAA520"

  /** The three sample goals the screen starts with. */
  const InitialGoals: seq<Goal> := [
    Goal("1", DigitalTransferCategory, 1000.0, 750.0, "send", PrimaryColor),
    Goal("2", BankTransferCategory, 500.0, 200.0, "account-balance", "#E91E63"),
    Goal("3", "Shopping", 300.0, 420.0, "shopping-cart", "#FF9800")
  ]

  datatype GoalError = MissingFields | InvalidBudget

  /** Every goal has a positive budget, so every card's division is defined. */
  ghost predicate PositiveBudgets(goals: seq<Goal>) {
    forall g :: g in goals ==> g.budget > 0.0
  }

  /** Appending a goal with a positive budget keeps every budget positive. */
  lemma AppendKeepsPositive(goals: seq<Goal>, goal: Goal)
    requires PositiveBudgets(goals) && goal.budget > 0.0
    ensures PositiveBudgets(goals + [goal])
  {
    assert forall g :: g in goals + [goal] ==> g in goals || g == goal;
  }

  /** The two checks `addNewGoal` makes before building the goal: a blank category or
      budget first, then a budget that is not a positive number. */
  function GoalFormError(category: string, budgetText: string): (r: Option<GoalError>)
    ensures r == Some(MissingFields) <==> JsText.AllSpace(category) || JsText.AllSpace(budgetText)
    ensures r == Some(InvalidBudget) <==>
      && !JsText.AllSpace(category) && !JsText.AllSpace(budgetText)
      && (JsNumber.ParseNumber(budgetText).None? || JsNumber.ParseNumber(budgetText).value <= 0.0)
    ensures r.None? ==> JsNumber.ParseNumber(budgetText).Some? && JsNumber.ParseNumber(budgetText).value > 0.0
  {
    JsText.TrimEmptyIffBlank(category);
    JsText.TrimEmptyIffBlank(budgetText);
    if JsText.Trim(category) == [] || JsText.Trim(budgetText) == [] then Some(MissingFields)
    else
      var budget := JsNumber.ParseNumber(budgetText);
      if budget.None? || budget.value <= 0.0 then Some(InvalidBudget) else None
  }

  class GoalsBoard {
    var goals: seq<Goal>
    var newGoalCategory: string
    var newGoalBudget: string
    var modalVisible: bool

    /** Every goal on the board has a positive budget, so every card's division is defined. */
    ghost predicate Valid()
      reads this
    {
      PositiveBudgets(goals)
    }

    constructor ()
      ensures Valid()
      ensures goals == InitialGoals && newGoalCategory == "" && newGoalBudget == "" && !modalVisible
    {
      goals := InitialGoals;
      newGoalCategory := "";
      newGoalBudget := "";
      modalVisible := false;
    }

    /** `addNewGoal`: a blank category or budget, then a budget that is not a positive
        number, is rejected with the list and the form untouched; otherwise the goal is
        appended with this month's spending in its category, and the form is reset. */
    method AddNewGoal(goalId: string, transactions: seq<Transaction>, now: YearMonth)
      returns (r: Option<GoalError>)
      requires Valid()
      modifies this
      ensures Valid()
      ensures r == Some(MissingFields) <==>
        JsText.AllSpace(old(newGoalCategory)) || JsText.AllSpace(old(newGoalBudget))
      ensures r.Some? ==>
        goals == old(goals) && newGoalCategory == old(newGoalCategory)
        && newGoalBudget == old(newGoalBudget) && modalVisible == old(modalVisible)
      ensures r == Some(InvalidBudget) <==>
        && !JsText.AllSpace(old(newGoalCategory)) && !JsText.AllSpace(old(newGoalBudget))
        && (JsNumber.ParseNumber(old(newGoalBudget)).None? || JsNumber.ParseNumber(old(newGoalBudget)).value <= 0.0)
      ensures r.None? ==>
        && JsNumber.ParseNumber(old(newGoalBudget)).Some?
        && goals == old(goals) + [Goal(goalId, old(newGoalCategory), JsNumber.ParseNumber(old(newGoalBudget)).value,
                                      SpentOn(CategorySpending(transactions, now), old(newGoalCategory)),
                                      "track-changes", "#9C27B0")]
        && newGoalCategory == "" && newGoalBudget == "" && !modalVisible
    {
      var category, budgetText := newGoalCategory, newGoalBudget;
      r := GoalFormError(category, budgetText);
      if r.Some? {
        return;
      }
      var budget := JsNumber.ParseNumber(budgetText).value;
      var spent := SpentOn(CategorySpending(transactions, now), category);
      var goal := Goal(goalId, category, budget, spent, "track-changes", "#9C27B0");
      AppendKeepsPositive(goals, goal);
      goals := goals + [goal];
      newGoalCategory := "";
      newGoalBudget := "";
      modalVisible := false;
      r := None;
    }

    /** `deleteGoal` once confirmed: drops exactly the goals with that id. */
    method DeleteGoal(goalId: string)
      requires Valid()
      modifies this
      ensures Valid()
      ensures goals == WithoutId(old(goals), goalId)
      ensures forall g :: g in goals <==> g in old(goals) && g.id != goalId
      ensures newGoalCategory == old(newGoalCategory) && newGoalBudget == old(newGoalBudget)
      ensures modalVisible == old(modalVisible)
    {
      goals := WithoutId(goals, goalId);
    }
  }
}
