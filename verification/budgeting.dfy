/** A named budget with a fixed total and the expenses charged against it. */
module Budgeting {
  import opened Outcomes
  import opened Money

  datatype BudgetExpense = BudgetExpense(description: string, amount: real)

  datatype BudgetSummary = BudgetSummary(name: string, totalAmount: real, totalExpenses: real, remainingBudget: real)

  function ExpenseAmount(e: BudgetExpense): real { e.amount }

  class Budget {
    var name: string
    var totalAmount: real
    var expenses: seq<BudgetExpense>

    /** Every accepted expense is at most the budget's total (the check is not against what remains). */
    predicate Valid()
      reads this
    {
      forall i :: 0 <= i < |expenses| ==> expenses[i].amount <= totalAmount
    }

    constructor(name: string, totalAmount: real)
      ensures Valid() && this.name == name && this.totalAmount == totalAmount && expenses == []
      ensures TotalExpenses() == 0.0 && RemainingBudget() == totalAmount
    {
      this.name := name;
      this.totalAmount := totalAmount;
      expenses := [];
    }

    /** Records an expense no larger than the total; the remaining budget drops by its amount. */
    method AddExpense(description: string, amount: real) returns (r: Outcome)
      requires Valid()
      modifies this
      ensures Valid() && name == old(name) && totalAmount == old(totalAmount)
      ensures r.Pass? <==> amount <= totalAmount
      ensures r.Fail? ==> r.message == "Expense exceeds remaining budget." && expenses == old(expenses)
      ensures r.Pass? ==> expenses == old(expenses) + [BudgetExpense(description, amount)]
      ensures r.Pass? ==> TotalExpenses() == old(TotalExpenses()) + amount
      ensures r.Pass? ==> RemainingBudget() == old(RemainingBudget()) - amount
    {
      if amount > totalAmount {
        return Fail("Expense exceeds remaining budget.");
      }
      SumOfAppend(expenses, BudgetExpense(description, amount), ExpenseAmount);
      expenses := expenses + [BudgetExpense(description, amount)];
      r := Pass;
    }

    /** The sum of the recorded amounts; since each is at most the total, so is their average. */
    function TotalExpenses(): (r: real)
      reads this
      ensures expenses == [] ==> r == 0.0
      ensures Valid() ==> r <= |expenses| as real * totalAmount
    {
      if Valid() then SumOfAtMost(expenses, ExpenseAmount, totalAmount); SumOf(expenses, ExpenseAmount)
      else SumOf(expenses, ExpenseAmount)
    }

    /** What is left of the total; it goes negative once the recorded expenses exceed it. */
    function RemainingBudget(): (r: real)
      reads this
      ensures r < 0.0 <==> TotalExpenses() > totalAmount
    {
      totalAmount - TotalExpenses()
    }

    function Summary(): (r: BudgetSummary)
      reads this
      ensures r.name == name && r.totalAmount == totalAmount
      ensures r.totalExpenses == TotalExpenses() && r.remainingBudget == RemainingBudget()
      ensures r.totalExpenses + r.remainingBudget == r.totalAmount
    {
      BudgetSummary(name, totalAmount, TotalExpenses(), RemainingBudget())
    }
  }

  /** Two expenses of 600 each are both accepted by a 1000 budget, which is then overdrawn by 200. */
  method OverdrawnBudget() returns (first: Outcome, second: Outcome, remaining: real)
    ensures first.Pass? && second.Pass? && remaining == -200.0
  {
    var budget := new Budget("Trip", 1000.0);
    first := budget.AddExpense("Flights", 600.0);
    second := budget.AddExpense("Hotel", 600.0);
    remaining := budget.RemainingBudget();
  }

  /** A 5000 budget with 1500 and 2000 spent reports 3500 spent and 1500 remaining. */
  method BudgetSummaryExample() returns (s: BudgetSummary)
    ensures s == BudgetSummary("Test Budget", 5000.0, 3500.0, 1500.0)
  {
    var budget := new Budget("Test Budget", 5000.0);
    var _ := budget.AddExpense("Groceries", 1500.0);
    var _ := budget.AddExpense("Rent", 2000.0);
    s := budget.Summary();
  }
}
