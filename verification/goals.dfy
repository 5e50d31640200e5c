/** Savings goals: a target, what has been saved so far, and a monthly contribution. */
module Goals {
  import opened Outcomes

  datatype Goal = Goal(name: string, targetAmount: real, currentAmount: real, monthlyContribution: real)

  predicate WellFormed(g: Goal)
  {
    g.targetAmount > 0.0 && g.currentAmount >= 0.0 && g.monthlyContribution >= 0.0
  }

  /** The goal with its saved amount replaced, when a new one is given. */
  function WithCurrent(g: Goal, currentAmount: Option<real>): Goal
  {
    if currentAmount.Some? then g.(currentAmount := currentAmount.value) else g
  }

  /** The goal with its contribution replaced, when a new one is given. */
  function WithContribution(g: Goal, monthlyContribution: Option<real>): Goal
  {
    if monthlyContribution.Some? then g.(monthlyContribution := monthlyContribution.value) else g
  }

  /** Whether `currentAmount` passes update_goal's check (absent counts as passing). */
  predicate CurrentAccepted(currentAmount: Option<real>)
  {
    currentAmount.None? || currentAmount.value >= 0.0
  }

  predicate ContributionAccepted(monthlyContribution: Option<real>)
  {
    monthlyContribution.None? || monthlyContribution.value >= 0.0
  }

  /** Saved amount over target, in percent, is 100 or more exactly when the target is reached. */
  lemma ProgressReached(currentAmount: real, targetAmount: real)
    requires targetAmount > 0.0
    ensures (currentAmount / targetAmount) * 100.0 >= 100.0 <==> currentAmount >= targetAmount
  {
    var progress := (currentAmount / targetAmount) * 100.0;
    assert progress * targetAmount == currentAmount * 100.0;
    assert (progress - 100.0) * targetAmount == (currentAmount - targetAmount) * 100.0;
    if progress >= 100.0 {
      assert (progress - 100.0) * targetAmount >= 0.0;
    } else {
      assert (progress - 100.0) * targetAmount < 0.0;
    }
  }

  class FinancialGoalPlanner {
    var goals: seq<Goal>

    predicate Valid()
      reads this
    {
      forall i :: 0 <= i < |goals| ==> WellFormed(goals[i])
    }

    constructor()
      ensures Valid() && goals == []
    {
      goals := [];
    }

    /**
     * Appends a goal and returns its index. A non-positive target, a negative saved amount and
     * a negative contribution are rejected, in that order, leaving the planner unchanged.
     */
    method AddGoal(name: string, targetAmount: real, currentAmount: real, monthlyContribution: real)
      returns (r: Result<nat>)
      requires Valid()
      modifies this
      ensures Valid()
      ensures r.Ok? <==> WellFormed(Goal(name, targetAmount, currentAmount, monthlyContribution))
      ensures targetAmount <= 0.0 ==> r == Err("Target amount must be greater than zero.")
      ensures targetAmount > 0.0 && currentAmount < 0.0 ==> r == Err("Current amount must be non-negative.")
      ensures targetAmount > 0.0 && currentAmount >= 0.0 && monthlyContribution < 0.0 ==>
                r == Err("Monthly contribution must be non-negative.")
      ensures r.Err? ==> goals == old(goals)
      ensures r.Ok? ==> goals == old(goals) + [Goal(name, targetAmount, currentAmount, monthlyContribution)]
      ensures r.Ok? ==> r.value == |goals| - 1 && goals[r.value].name == name
    {
      if targetAmount <= 0.0 {
        return Err("Target amount must be greater than zero.");
      }
      if currentAmount < 0.0 {
        return Err("Current amount must be non-negative.");
      }
      if monthlyContribution < 0.0 {
        return Err("Monthly contribution must be non-negative.");
      }
      goals := goals + [Goal(name, targetAmount, currentAmount, monthlyContribution)];
      r := Ok(|goals| - 1);
    }

    /**
     * Overwrites the given fields of one goal; other goals and other fields stay as they were.
     * The update is not atomic: a valid new saved amount is written before a negative
     * contribution is rejected, and stays written.
     */
    method UpdateGoal(index: int, currentAmount: Option<real>, monthlyContribution: Option<real>)
      returns (r: Outcome)
      requires Valid()
      modifies this
      ensures Valid()
      ensures r.Pass? <==> 0 <= index < |old(goals)| && CurrentAccepted(currentAmount) && ContributionAccepted(monthlyContribution)
      ensures !(0 <= index < |old(goals)|) ==> r == Fail("Invalid goal index.") && goals == old(goals)
      ensures 0 <= index < |old(goals)| && !CurrentAccepted(currentAmount) ==>
                r == Fail("Current amount must be non-negative.") && goals == old(goals)
      ensures 0 <= index < |old(goals)| && CurrentAccepted(currentAmount) && !ContributionAccepted(monthlyContribution) ==>
                r == Fail("Monthly contribution must be non-negative.") &&
                goals == old(goals)[index := WithCurrent(old(goals)[index], currentAmount)]
      ensures r.Pass? ==>
                goals == old(goals)[index := WithContribution(WithCurrent(old(goals)[index], currentAmount), monthlyContribution)]
    {
      if index < 0 || index >= |goals| {
        return Fail("Invalid goal index.");
      }
      if currentAmount.Some? {
        if currentAmount.value < 0.0 {
          return Fail("Current amount must be non-negative.");
        }
        goals := goals[index := goals[index].(currentAmount := currentAmount.value)];
      }
      if monthlyContribution.Some? {
        if monthlyContribution.value < 0.0 {
          return Fail("Monthly contribution must be non-negative.");
        }
        goals := goals[index := goals[index].(monthlyContribution := monthlyContribution.value)];
      }
      r := Pass;
    }

    /** The saved share of the target, in percent: 100 or more exactly when the target is reached. */
    function CalculateProgress(index: int): (r: Result<real>)
      requires Valid()
      reads this
      ensures r.Ok? <==> 0 <= index < |goals|
      ensures r.Err? ==> r.message == "Invalid goal index."
      ensures r.Ok? ==> r.value >= 0.0 && r.value * goals[index].targetAmount == goals[index].currentAmount * 100.0
      ensures r.Ok? ==> (r.value >= 100.0 <==> goals[index].currentAmount >= goals[index].targetAmount)
    {
      if index < 0 || index >= |goals| then Err("Invalid goal index.")
      else
        var goal := goals[index];
        var progress := (goal.currentAmount / goal.targetAmount) * 100.0;
        ProgressReached(goal.currentAmount, goal.targetAmount);
        Ok(progress)
    }

    /**
     * The months of contributions still needed: zero once the target is reached (whatever the
     * contribution), none without a positive contribution, otherwise exactly the number of
     * contributions that cover the remaining amount.
     */
    function EstimateCompletionTime(index: int): (r: Result<Option<real>>)
      requires Valid()
      reads this
      ensures r.Ok? <==> 0 <= index < |goals|
      ensures r.Err? ==> r.message == "Invalid goal index."
      ensures r.Ok? && goals[index].targetAmount <= goals[index].currentAmount ==> r.value == Some(0.0)
      ensures r.Ok? && goals[index].targetAmount > goals[index].currentAmount ==>
                (r.value.None? <==> goals[index].monthlyContribution <= 0.0)
      ensures r.Ok? && r.value.Some? ==>
                r.value.value >= 0.0 &&
                goals[index].currentAmount + r.value.value * goals[index].monthlyContribution >= goals[index].targetAmount
      ensures r.Ok? && r.value.Some? && r.value.value > 0.0 ==>
                goals[index].currentAmount + r.value.value * goals[index].monthlyContribution == goals[index].targetAmount
    {
      if index < 0 || index >= |goals| then Err("Invalid goal index.")
      else
        var goal := goals[index];
        var remainingAmount := goal.targetAmount - goal.currentAmount;
        if remainingAmount <= 0.0 then Ok(Some(0.0))
        else if goal.monthlyContribution <= 0.0 then Ok(None)
        else Ok(Some(remainingAmount / goal.monthlyContribution))
    }
  }

  /**
   * A 500000 goal with 50000 saved and 2000 a month: index 0, 10 percent done, 225 months to go.
   * Raising the saved amount to 60000 together with a negative contribution fails but keeps
   * the new saved amount.
   */
  method GoalPlannerExample() returns (index: Result<nat>, progress: Result<real>, months: Result<Option<real>>,
                                       update: Outcome, saved: real)
    ensures index == Ok(0) && progress == Ok(10.0) && months == Ok(Some(225.0))
    ensures update == Fail("Monthly contribution must be non-negative.") && saved == 60000.0
  {
    var planner := new FinancialGoalPlanner();
    index := planner.AddGoal("Buy a House", 500000.0, 50000.0, 2000.0);
    progress := planner.CalculateProgress(0);
    months := planner.EstimateCompletionTime(0);
    update := planner.UpdateGoal(0, Some(60000.0), Some(-1.0));
    saved := planner.goals[0].currentAmount;
  }
}
