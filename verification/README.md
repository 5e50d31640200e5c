# FinSight personal-finance core in Dafny

This project models the calculators of FinSight's `finegist` package and proves
what they promise:

- the debt manager: registering debts, one simulated month of interest, minimum
  payments and an extra payment aimed by the avalanche or snowball strategy, the
  month-by-month payment plan, the strategy comparison and the per-debt
  amortization schedule;
- the progressive income-tax estimator, with its bracket tables, tax-free allowance
  and deductions;
- the financial-goal planner;
- the fixed-rate loan calculator, with its annuity payment and repayment schedule;
- the expense tracker;
- the investment portfolio;
- the net-worth calculator;
- the budget;
- the savings calculator.

Money is `real`, so sums and ratios are exact. A Python `ValueError` becomes an
`Err`/`Fail` value carrying the same message (module `Outcomes`). Sums over a single list
go through one generic fold, `Money.SumOf`. The month's interest figure, which pairs
each debt's opening and closing balances, has its own recursion, `DebtModel.ReconciledInterest`.

Objects whose methods change their fields are classes. Their list fields are `seq`
values that the methods reassign:

- `DebtManager`, `TaxEstimator`, `FinancialGoalPlanner`, `ExpenseTracker`,
  `InvestmentPortfolio`, `NetWorthCalculator` and `Budget` are classes.
- The savings and loan calculators never change after construction. They are
  datatypes with a checked constructor function.

The loops of the source are methods with loop invariants. Each loop is proved
against a specification function, and the lemmas state the properties of that
function:

- the payment-plan simulation works on an `array` of debts updated in place
  (`RunMonths`, `SimulateMonth`, `ApplyInterestAndMinimumPayments`,
  `ApplyAdditionalPayment`);
- the amortization loop;
- the tax bracket loop;
- the expense-summary loop;
- the loan schedule loop.

## Model

| member | source | states |
|---|---|---|
| DebtManagement.DebtManager.constructor | finegist/debt_manager.py:2-7 | A new manager holds no debts and no additional payment. |
| DebtManagement.DebtManager.AddDebt | finegist/debt_manager.py:9-32 | Succeeds exactly when balance > 0, rate ≥ 0 and minimum > 0. The checks apply in order, and each rejection carries its own message and leaves the debts unchanged: a balance ≤ 0, a negative rate, a minimum payment ≤ 0. On success exactly one record is appended, holding the rate as percent/100 and the original balance equal to the balance. The returned index is that of the new record. |
| DebtManagement.DebtManager.SetAdditionalPayment | finegist/debt_manager.py:34-41 | Fails exactly on a negative amount and then keeps the old value; otherwise stores the amount; debts untouched. |
| DebtManagement.DebtManager.TotalDebt | finegist/debt_manager.py:43-48 | The sum of balances is non-negative and positive exactly when a debt is registered. |
| DebtManagement.DebtManager.TotalMinimumPayment | finegist/debt_manager.py:50-55 | The sum of minimum payments is non-negative and positive exactly when a debt is registered. |
| DebtModel.TotalsOfAdmissible | finegist/debt_manager.py:48-55 | For debts that passed add_debt's checks, both totals are ≥ 0 and > 0 iff the list is non-empty. |
| DebtManagement.DebtManager.ApplyInterestAndMinimumPayments | finegist/debt_manager.py:57-77 | The in-place loop leaves every debt as the one-debt step `AfterMinimum` leaves it. It returns the sum of the minimum payments charged. |
| DebtModel.MinimumStepSpec | finegist/debt_manager.py:64-74 | Debts with balance ≤ 0 are untouched and the terms of every debt are kept. An open debt ends at accrued − minimum when accrued ≥ minimum, and at 0 otherwise, so it is never negative. |
| DebtModel.MinimumStepAccounting | finegist/debt_manager.py:69-75 | The total balance after the step equals the total before, plus the interest accrued on open debts, minus the payments applied. |
| DebtModel.MinimumAppliedBounds | finegist/debt_manager.py:73-75 | The total applied lies between 0 and the sum of the minimums. It equals that sum when every debt is open and can cover its minimum after interest. |
| DebtModel.ParseStrategy | finegist/debt_manager.py:123-124 | Only "avalanche" and "snowball" are accepted, and each parses to the strategy of that name. |
| DebtModel.ScanFindsTarget | finegist/debt_manager.py:91-102 | The left-to-right scan finds a target iff some debt is open. The target is an open debt that no open debt is preferred over, and no earlier open debt ties with it. |
| DebtModel.TargetSpec | finegist/debt_manager.py:91-105 | No target iff no debt is open. Otherwise the target is the first open debt of maximal rate under avalanche, or of minimal balance under snowball. |
| DebtManagement.DebtManager.ApplyAdditionalPayment | finegist/debt_manager.py:79-111 | The in-place update equals the extra-payment step function on the old array contents. |
| DebtModel.ExtraStepSpec | finegist/debt_manager.py:87-111 | It is a no-op when the extra is ≤ 0 or no debt is open. Otherwise only the target changes, falling by min(balance, extra), and the leftover goes nowhere. Terms and closed debts are kept and balances stay non-negative. The total falls by the amount applied, which lies in [0, extra]. |
| DebtManagement.DebtManager.SimulateMonth | finegist/debt_manager.py:138-175 | One loop iteration: the debts end as `MonthEnd` of their start, and the record is the month's snapshot of start and end. |
| DebtModel.SnapshotOf | finegist/debt_manager.py:147-175 | The record carries the month and the closing total. Its interest is max(0, reconciled interest): it is ≥ 0 and ≥ the reconciled figure, and equals one of them. Its payment is ≤ both the opening total and minimums + extra, and equals one of them. |
| DebtModel.SnapshotDebts | finegist/debt_manager.py:170-174 | Each debt is listed under its name with its closing balance, and paid-this-month + closing = opening. |
| DebtModel.ReportedInterest | finegist/debt_manager.py:63-77 | The month's reconciled interest, before the floor at 0, equals the interest accrued on open debts, plus the minimum that debts too small to absorb it left unpaid, minus the extra payment applied. |
| DebtModel.ReportedInterestBelowAccrued | finegist/debt_manager.py:147-154 | When no open debt falls short of its minimum, the month's reported interest is at most the interest accrued (floored at 0), and strictly below a positive accrual whenever some extra payment is applied. |
| DebtModel.ReconciledAfterMinimums | finegist/debt_manager.py:63-77 | Before the extra payment, the reconciled figure is the interest accrued plus the unpaid minimums. |
| DebtModel.ReconciledUpdate | finegist/debt_manager.py:147-151 | Changing one closing balance moves the reconciled figure by that change if the debt was open at the start of the month, and leaves it alone otherwise. |
| DebtModel.MonthEndSpec | finegist/debt_manager.py:141-144 | A month keeps every debt's terms, leaves closed debts untouched and keeps balances non-negative. |
| DebtManagement.DebtManager.GeneratePaymentPlan | finegist/debt_manager.py:113-188 | An empty debt list is rejected first, then an unknown strategy, each with its own message. Otherwise the result is the plan of the registered debts, which are not modified. |
| DebtManagement.DebtManager.RunMonths | finegist/debt_manager.py:129-176 | The while loop over the array ends in exactly the state the month-by-month simulation function reaches from the initial contents. |
| DebtModel.SimulateShape | finegist/debt_manager.py:134-185 | Running the month loop from a well-shaped state (record k is month k+1, one record per month) keeps that shape, never moves the month counter backwards nor past max_months, keeps the records already written, and stops early only when no debt is open. |
| DebtModel.PlanShape | finegist/debt_manager.py:134-185 | The plan keeps the strategy name. Months to payoff equals the number of records, is at least 0 and at most max_months, and record k is month k+1. Paid off successfully iff months < max_months. A successful payoff leaves no debt open; a failed one used every allowed month. |
| DebtModel.PayoffInLastAllowedMonth | finegist/debt_manager.py:134-185 | A debt cleared in exactly the last allowed month is reported as not paid off successfully. |
| DebtModel.PlanSound | finegist/debt_manager.py:134-183 | From non-negative balances: every record lists each debt under its name with a non-negative balance, and its interest and closing total are non-negative. The final balances are non-negative, and the original debt is the sum of the original balances. |
| DebtModel.PlanTotals | finegist/debt_manager.py:155-181 | The plan's total interest and total paid are the sums of the per-month figures, and the interest total is non-negative. |
| DebtModel.PlanChained | finegist/debt_manager.py:138-167 | Month 1 pays at most the opening total. Each later month pays at most the previous month's closing total. A debt closed at the end of one month keeps its balance in the next, with nothing paid on it. |
| DebtModel.PlanFirstMonth | finegist/debt_manager.py:134-176 | When a debt is open and max_months ≥ 1, the first record is the snapshot of one `MonthEnd` step from the registered debts. |
| DebtManagement.DebtManager.CompareStrategies | finegist/debt_manager.py:190-209 | An empty list is rejected. Otherwise the result is the comparison of the snowball plan and the avalanche plan. |
| DebtModel.Compare | finegist/debt_manager.py:199-207 | The fields are copied from the two plans, and the differences are snowball − avalanche. The optimal strategy is one of the two, and it is "avalanche" iff avalanche interest ≤ snowball interest. |
| DebtManagement.DebtManager.AmortizationSchedule | finegist/debt_manager.py:211-254 | An out-of-range index is rejected. Otherwise the while loop yields the debt's amortization, as the specification function defines it. |
| DebtModel.AmortizationSpec | finegist/debt_manager.py:218-252 | At most 360 entries. Entry k is month k+1, with interest on the opening balance and payment = min(minimum + extra, balance after interest). Its principal is payment − interest, its remaining balance is ≥ 0 and its running interest is the sum of interest so far. The loop stops only after 360 months or once the balance is ≤ 0, and a schedule shorter than 360 ends at exactly 0. |
| DebtModel.AmortizeStep | finegist/debt_manager.py:227-252 | One iteration of the amortization loop preserves the loop invariant. |
| DebtModel.FixtureTotals | finegist/debt_manager.py:48-55 | The three-debt fixture totals 23000 in balances and 550 in minimums. |
| DebtModel.FixtureAfterMinimums | finegist/debt_manager.py:63-77 | After the first month's minimums the fixture's balances are 4925, 14775 and 2925. |
| DebtModel.FixtureTargets | finegist/debt_manager.py:95-102 | On the fixture, avalanche aims at the 18% credit card and snowball at the personal loan. |
| DebtModel.FixtureFirstMonthAvalanche | finegist/debt_manager.py:134-176 | With 200 extra, avalanche leaves the credit card at 4725 and the personal loan at 2925 after month 1. |
| DebtModel.FixtureFirstMonthSnowball | finegist/debt_manager.py:134-176 | With 200 extra, snowball leaves the credit card at 4925 and the personal loan at 2725 after month 1. |
| DebtModel.FixtureFirstMonthInterest | finegist/debt_manager.py:147-155 | On the fixture, 175 of interest accrues in month 1, yet the avalanche plan records an interest figure of 0 for that month. |
| DebtModel.CarLoanFirstPayment | finegist/debt_manager.py:238-239 | The car loan with 100 extra pays 400 in its first month. |
| TaxEstimation.TaxEstimator.constructor | finegist/tax_estimator.py:2-26 | "indonesia" in any letter case selects the four-bracket Indonesian table and a 54,000,000 allowance. Any other country selects the three-bracket default table and no allowance. |
| TaxEstimation.BuiltInTablesWellFormed | finegist/tax_estimator.py:12-25 | Both built-in tables are contiguous and have rates in [0, 1]. |
| TaxEstimation.TaxEstimator.SetTaxBrackets | finegist/tax_estimator.py:28-36 | Fails iff some bracket lacks min, max or rate, and then keeps the old table. Otherwise the table becomes the given brackets, in order. |
| TaxEstimation.TaxEstimator.SetNonTaxableIncome | finegist/tax_estimator.py:38-45 | Fails exactly on a negative amount, keeping the old allowance; otherwise stores it. |
| TaxEstimation.TaxEstimator.AddDeduction | finegist/tax_estimator.py:47-55 | Fails exactly on an amount ≤ 0 with nothing changed; otherwise appends one deduction. |
| TaxEstimation.TaxEstimator.TotalDeductions | finegist/tax_estimator.py:57-61 | The sum of the deductions is ≥ 0, and > 0 iff a deduction is recorded. |
| TaxEstimation.Taxable | finegist/tax_estimator.py:72-75 | The result is ≥ 0 and ≥ gross − allowance − deductions, and it equals one of the two. |
| TaxEstimation.TaxEstimator.TaxableIncome | finegist/tax_estimator.py:63-75 | Succeeds exactly on a non-negative gross; a negative gross is rejected. Otherwise the result is the floored difference, which never exceeds the gross. |
| TaxEstimation.TaxEstimator.CalculateTax | finegist/tax_estimator.py:77-104 | Succeeds exactly on a non-negative gross, and a negative gross is rejected with its message. On success the for loop, with its continue and break, computes the bracket walk on the taxable income. |
| TaxEstimation.TaxStopsAtCover | finegist/tax_estimator.py:100-102 | After the first reached bracket that covers the income, later brackets add nothing. |
| TaxEstimation.TaxBelowAllBrackets | finegist/tax_estimator.py:92-93 | An income at or below every bracket minimum, such as zero income, owes no tax. |
| TaxEstimation.TaxIsMarginal | finegist/tax_estimator.py:90-102 | On a contiguous table, the early-stopping loop equals the marginal-rate tax, in which each bracket taxes its slice. |
| TaxEstimation.TaxBounds | finegist/tax_estimator.py:90-104 | On a contiguous table with rates in [0, 1] that starts at or above 0, the tax on a non-negative income is between 0 and that income. |
| TaxEstimation.IndonesiaExample | finegist/tax_estimator.py:12-17 | 66M taxable on the Indonesian table owes 3.9M. |
| TaxEstimation.TaxableExamples | finegist/tax_estimator.py:18-75 | 120M gross less 54M and 5M leaves 61M. Without the deduction, 66M remains and is taxed 3.9M. |
| TaxEstimation.TaxEstimator.CalculateEffectiveTaxRate | finegist/tax_estimator.py:106-116 | Succeeds exactly on a positive gross; a gross ≤ 0 is rejected. Otherwise rate × gross = tax. |
| TaxEstimation.TaxEstimator.Summary | finegist/tax_estimator.py:118-136 | Succeeds exactly on a non-negative gross; a negative gross is rejected. The summary reports the allowance, the deductions and their total, and the taxable income. After-tax income + tax = gross. The rate in percent satisfies rate × gross = 100 × tax, and it is 0 when gross is 0. |
| TaxEstimation.Lower | finegist/tax_estimator.py:11 | Lower-casing keeps the length and every character that is not an ASCII capital. |
| TaxEstimation.LowerIndonesia | finegist/tax_estimator.py:11 | "Indonesia" and "INDONESIA" both lower-case to "indonesia". |
| Goals.ProgressReached | finegist/financial_goal_planner.py:65 | For a positive target, progress ≥ 100% iff current ≥ target. |
| Goals.FinancialGoalPlanner.constructor | finegist/financial_goal_planner.py:4-8 | A new planner holds no goals. |
| Goals.FinancialGoalPlanner.AddGoal | finegist/financial_goal_planner.py:10-32 | Succeeds iff target > 0, current ≥ 0 and contribution ≥ 0. Failures are checked in that order with their messages and change nothing. On success one goal is appended and its index is returned. |
| Goals.FinancialGoalPlanner.UpdateGoal | finegist/financial_goal_planner.py:34-53 | A bad index fails and changes nothing. A negative current amount fails with nothing changed. The update is not atomic: a negative contribution fails after the current amount was written. Success updates only the fields passed, of that goal only. |
| Goals.FinancialGoalPlanner.CalculateProgress | finegist/financial_goal_planner.py:55-65 | A bad index is rejected. Otherwise progress ≥ 0, progress × target = current × 100, and progress ≥ 100 iff the target is reached. |
| Goals.FinancialGoalPlanner.EstimateCompletionTime | finegist/financial_goal_planner.py:67-86 | A bad index is rejected. The result is 0 once the target is reached, a test made before the contribution test. A target not yet reached with contribution ≤ 0 gives None. Otherwise the months are ≥ 0 and reach the target exactly. |
| Goals.GoalPlannerExample | finegist/financial_goal_planner.py:10-86 | 500,000 target, 50,000 saved and 2,000 a month gives index 0, progress 10% and 225 months. An update with a negative contribution fails but keeps the new current amount. |
| Loans.NewLoan | finegist/loan_repayment_calculator.py:2-18 | Succeeds iff principal > 0, rate ≥ 0 and years > 0. Failures are checked in that order with their messages. On success the rate is stored as percent/100. |
| Loans.CalculateMonthlyPayment | finegist/loan_repayment_calculator.py:20-37 | On a valid loan the instalment is positive. |
| Loans.BalanceClosedForm | finegist/loan_repayment_calculator.py:49-51 | After k months the running balance B satisfies r·B = r·P·(1+r)^k − payment·((1+r)^k − 1). |
| Loans.BalanceWithoutInterest | finegist/loan_repayment_calculator.py:27-51 | At zero rate the balance falls by one instalment a month. |
| Loans.PaymentRetiresLoan | finegist/loan_repayment_calculator.py:24-35 | Paying the computed instalment for years × 12 months leaves exactly nothing owing, both for a zero rate and through the annuity formula. |
| Loans.GenerateRepaymentSchedule | finegist/loan_repayment_calculator.py:39-60 | The schedule has exactly years × 12 entries, for months 1 to n in order. Each month's interest is charged on the unrounded balance and the rest of the instalment repays principal. Rounding touches only the recorded figures. |
| Loans.ScheduleEndsPaidOff | finegist/loan_repayment_calculator.py:48-57 | The last entry records a rounded zero balance. |
| ExpenseTracking.ExpenseTracker.constructor | finegist/expense_tracker.py:4-8 | A new tracker holds no expenses. |
| ExpenseTracking.ExpenseTracker.AddExpense | finegist/expense_tracker.py:10-21 | Fails exactly on an amount ≤ 0 with nothing changed. Otherwise it appends one expense, dated by the given date or else today, and the total grows by the amount. |
| ExpenseTracking.ExpenseTracker.TotalExpenses | finegist/expense_tracker.py:23-27 | The total is ≥ 0, and > 0 iff an expense is recorded. |
| ExpenseTracking.ExpenseTracker.ExpensesByDate | finegist/expense_tracker.py:29-34 | An expense is in the result iff it is recorded with that date. |
| ExpenseTracking.OnDateMembers | finegist/expense_tracker.py:34 | The filter keeps exactly the expenses with that date. |
| ExpenseTracking.OnDateCounts | finegist/expense_tracker.py:34 | The filter keeps every such expense as many times as it was recorded, and no other. |
| ExpenseTracking.OnDateAppend | finegist/expense_tracker.py:34 | Filtering distributes over concatenation, so insertion order is kept. |
| ExpenseTracking.OnDateWithinTotal | finegist/expense_tracker.py:27-34 | With positive amounts, one date's total is between 0 and the overall total. |
| ExpenseTracking.ExpenseTracker.Summary | finegist/expense_tracker.py:36-46 | The loop builds a map whose keys are exactly the dates present. Each value is the sum of the amounts recorded on that date. |
| ExpenseTracking.SummaryOfGroups | finegist/expense_tracker.py:40-46 | The incremental summary has exactly the dates present as keys and each date's total as value. |
| ExpenseTracking.SummaryKeys | finegist/expense_tracker.py:43-44 | The summary's keys are the dates present. |
| ExpenseTracking.SummaryValue | finegist/expense_tracker.py:45 | A date's entry is the sum of that date's amounts. |
| ExpenseTracking.DatesInMembers | finegist/expense_tracker.py:40-46 | A date is present iff some expense carries it. |
| ExpenseTracking.OnDateAbsent | finegist/expense_tracker.py:34 | A date that no expense carries filters to nothing. |
| ExpenseTracking.ExampleFacts | finegist/expense_tracker.py:23-46 | For lunch (50) today, dinner (100) yesterday and a snack (25) today, the total is 175. Today's filter is lunch then snack, and yesterday's is the dinner alone. The summary has exactly the two dates, with 75 and 100. |
| ExpenseTracking.ExpenseTrackerExample | finegist/expense_tracker.py:10-46 | Through the tracker, with the snack added without a date and so recorded today: the total is 175. Today's filter keeps lunch and snack in that order and drops yesterday's dinner. The summary maps today to 75 and yesterday to 100, and has no other key. |
| Investments.InvestmentPortfolio.constructor | finegist/investment_portfolio.py:2-7 | A new portfolio is empty. |
| Investments.InvestmentPortfolio.AddInvestment | finegist/investment_portfolio.py:9-19 | Succeeds iff amount > 0 and current value > 0, so a zero current value is rejected despite the message. A failure changes nothing. Success appends one record, and both totals grow by its fields. |
| Investments.InvestmentPortfolio.TotalInvested | finegist/investment_portfolio.py:21-26 | The sum invested is > 0 iff the portfolio is non-empty. |
| Investments.InvestmentPortfolio.TotalCurrentValue | finegist/investment_portfolio.py:28-33 | The sum of current values is > 0 iff the portfolio is non-empty. |
| Investments.InvestmentPortfolio.Summary | finegist/investment_portfolio.py:35-44 | The summary carries both totals and the investment list. |
| Investments.PortfolioExample | finegist/investment_portfolio.py:9-44 | Two investments total 3000 invested and 3700 current. |
| NetWorth.NetWorthCalculator.constructor | finegist/net_worth_calculator.py:2-7 | A new calculator has no assets, no liabilities and net worth 0. |
| NetWorth.NetWorthCalculator.AddAsset | finegist/net_worth_calculator.py:9-17 | Fails exactly on a negative value, with nothing changed; zero is allowed. Success appends to the assets only, and net worth grows by the value. |
| NetWorth.NetWorthCalculator.AddLiability | finegist/net_worth_calculator.py:19-27 | Fails exactly on a negative value, with nothing changed. Success appends to the liabilities only, and net worth falls by the value. |
| NetWorth.NetWorthCalculator.TotalAssets | finegist/net_worth_calculator.py:29-33 | With non-negative values, the total is ≥ 0 and at least every single asset. |
| NetWorth.NetWorthCalculator.TotalLiabilities | finegist/net_worth_calculator.py:35-39 | With non-negative values, the total is ≥ 0 and at least every single liability. |
| NetWorth.NetWorthCalculator.CalculateNetWorth | finegist/net_worth_calculator.py:41-45 | Net worth lies between −liabilities and assets. |
| NetWorth.NetWorthExample | finegist/net_worth_calculator.py:29-45 | 530,000 in assets less 215,000 in liabilities gives 315,000. |
| Budgeting.Budget.constructor | finegist/budget.py:2-9 | A new budget has no expenses, and its whole amount remains. |
| Budgeting.Budget.AddExpense | finegist/budget.py:11-18 | Accepts iff the amount is ≤ the total amount, not the remaining amount. A rejection carries its message and changes nothing. Acceptance appends one expense: spending grows and the remainder falls by the amount. |
| Budgeting.Budget.TotalExpenses | finegist/budget.py:20-24 | Spending is 0 with no expenses, and at most n × total amount for n accepted expenses. |
| Budgeting.Budget.RemainingBudget | finegist/budget.py:26-31 | The remainder is negative iff spending exceeds the total amount. |
| Budgeting.Budget.Summary | finegist/budget.py:33-43 | The summary repeats the name and the amount, and spending + remainder = amount. |
| Budgeting.OverdrawnBudget | finegist/budget.py:11-31 | Two accepted 600 expenses against 1000 leave −200: the budget can be overdrawn. |
| Budgeting.BudgetSummaryExample | finegist/budget.py:33-43 | 5000 less 1500 and 2000 gives spending 3500 and 1500 remaining. |
| Savings.NewSavingsCalculator | finegist/savings_calculator.py:2-13 | Succeeds iff income ≥ 0 and expenses ≥ 0. The income check comes first, and each failure carries its message. |
| Savings.CalculateSavings | finegist/savings_calculator.py:15-19 | Savings lie between −expenses and income, and they are positive iff income > expenses. |
| Savings.CalculateMonthsToTarget | finegist/savings_calculator.py:21-31 | A negative target is rejected first, then savings ≤ 0. Otherwise months ≥ 0 and months × savings = target. |

## Left out

- finegist/currency_converter.py is not part of this model. It fetches rates over HTTP, caches them in a file on disk and expires them by the wall clock.
- example_app.py is a printing script and is not part of this model.
- The clock:
  - `ExpenseTracker.AddExpense` takes today's date as the `today` parameter instead of reading it.
  - The goal's creation date is not recorded.
  - `calculate_expected_completion_date` (date arithmetic on the clock) is not modelled.
- Floating point: money is `real`, so IEEE rounding and the approximate values the tests compare against are not reproduced.
- `Loans.GenerateRepaymentSchedule`: Python's `round(x, 2)` is the `round2` parameter, left uninterpreted.
- `Loans.CalculateMonthlyPayment`: its contract states only positivity. What the formula means is stated by `PaymentRetiresLoan`.
- The test claim that avalanche interest ≤ snowball interest over 60 months is not proved. It is a numeric fact about one fixture run, not a property of the code. The same holds for the five-month balance decreases in the strategy tests.
- `TaxEstimation.TaxEstimator.SetTaxBrackets`: the dictionaries are modelled as records whose three fields may be missing (`Option`). Extra keys and non-numeric values are not represented, and an unbounded maximum is `Unbounded` instead of `float('inf')`.
- `TaxEstimation.Lower`: lower-casing covers ASCII letters only.
- `ExpenseTracking.ExpenseTracker.Summary`: a Dafny `map` has no insertion order. The order of the Python dictionary's keys is not modelled.
- Python default arguments are explicit parameters:
  - the strategy "avalanche" and max_months 360;
  - an extra payment of 0;
  - the country "Indonesia";
  - the goal amounts of 0.
- `update_goal`'s omitted fields are `None` options.
- The loan duration is an integer number of years.
- `Goals.FinancialGoalPlanner.EstimateCompletionTime`: the Python integer 0 returned for a reached goal is the real 0.0.
- `DebtManagement.DebtManager.RunMonths` and `DebtManagement.DebtManager.SimulateMonth` are the body of generate_payment_plan's loop and one iteration of it, split out as separate methods. The `starting_balances` dictionary is the start-of-month copy of the array.
- Aliasing of lists between an object and its callers is not modelled, because lists are `seq` values:
  - `set_tax_brackets` keeps the caller's own list (finegist/tax_estimator.py:36), so a later change the caller makes to it would change the estimator's table.
  - `tax_summary` hands out the estimator's own deductions list (finegist/tax_estimator.py:130).
  - `portfolio_summary` hands out the portfolio's own investment list (finegist/investment_portfolio.py:43).
  - The debt manager copies each debt record before simulating (finegist/debt_manager.py:127 and 221), so no aliasing is lost there.
