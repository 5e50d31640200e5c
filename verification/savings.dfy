/** Monthly savings from income and expenses, and the months needed to reach a target. */
module Savings {
  import opened Outcomes

  /** Monthly income and expenses; a value of this type has passed the constructor's checks. */
  datatype SavingsCalculator = SavingsCalculator(income: real, expenses: real)

  /** The constructor: rejects a negative income, then a negative expense figure. */
  function NewSavingsCalculator(income: real, expenses: real): (r: Result<SavingsCalculator>)
    ensures r.Ok? <==> income >= 0.0 && expenses >= 0.0
    ensures r.Ok? ==> r.value.income == income && r.value.expenses == expenses
    ensures income < 0.0 ==> r == Err("Income must be non-negative.")
    ensures income >= 0.0 && expenses < 0.0 ==> r == Err("Expenses must be non-negative.")
  {
    if income < 0.0 then Err("Income must be non-negative.")
    else if expenses < 0.0 then Err("Expenses must be non-negative.")
    else Ok(SavingsCalculator(income, expenses))
  }

  /** What is left of the income each month; never more than the income, never less than minus the expenses. */
  function CalculateSavings(c: SavingsCalculator): (r: real)
    requires c.income >= 0.0 && c.expenses >= 0.0
    ensures -c.expenses <= r <= c.income
    ensures r > 0.0 <==> c.income > c.expenses
  {
    c.income - c.expenses
  }

  /**
   * The (fractional) number of months of saving that add up to the target. A negative target
   * is rejected before the savings are looked at; no positive savings means no answer.
   */
  function CalculateMonthsToTarget(c: SavingsCalculator, targetSavings: real): (r: Result<real>)
    requires c.income >= 0.0 && c.expenses >= 0.0
    ensures r.Ok? <==> targetSavings >= 0.0 && CalculateSavings(c) > 0.0
    ensures targetSavings < 0.0 ==> r == Err("Target savings must be non-negative.")
    ensures targetSavings >= 0.0 && CalculateSavings(c) <= 0.0 ==>
              r == Err("Monthly savings must be greater than zero to reach the target.")
    ensures r.Ok? ==> r.value >= 0.0 && r.value * CalculateSavings(c) == targetSavings
  {
    if targetSavings < 0.0 then Err("Target savings must be non-negative.")
    else
      var monthlySavings := CalculateSavings(c);
      if monthlySavings <= 0.0 then Err("Monthly savings must be greater than zero to reach the target.")
      else Ok(targetSavings / monthlySavings)
  }

  /** Saving 2000 a month out of 5000 reaches 10000 in 5 months; with nothing saved there is no answer. */
  lemma SavingsExamples()
    ensures NewSavingsCalculator(5000.0, 3000.0) == Ok(SavingsCalculator(5000.0, 3000.0))
    ensures CalculateSavings(SavingsCalculator(5000.0, 3000.0)) == 2000.0
    ensures CalculateMonthsToTarget(SavingsCalculator(5000.0, 3000.0), 10000.0) == Ok(5.0)
    ensures CalculateMonthsToTarget(SavingsCalculator(3000.0, 3000.0), 10000.0).Err?
    ensures NewSavingsCalculator(-5000.0, 3000.0).Err? && NewSavingsCalculator(5000.0, -3000.0).Err?
  {
  }
}
