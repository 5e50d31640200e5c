/**
 * The debt manager object: the registered debts and the extra monthly payment are
 * its state; planning works on a fresh array copy of the debts, updated in place
 * month by month, and is proved to compute the plan DebtModel specifies.
 */
module DebtManagement {
  import opened Outcomes
  import opened Money
  import opened DebtModel

  class DebtManager {
    var debts: seq<Debt>
    var additionalPayment: real

    /** What add_debt and set_additional_payment guarantee of the stored state. */
    ghost predicate Valid()
      reads this
    {
      && additionalPayment >= 0.0
      && forall i :: 0 <= i < |debts| ==> Admissible(debts[i])
    }

    constructor()
      ensures Valid() && debts == [] && additionalPayment == 0.0
    {
      debts := [];
      additionalPayment := 0.0;
    }

    /** Registers a debt (rate given as a percentage) and returns its index, or rejects the input. */
    method AddDebt(name: string, balance: real, interestRate: real, minimumPayment: real) returns (r: Result<nat>)
      requires Valid()
      modifies this
      ensures Valid() && additionalPayment == old(additionalPayment)
      ensures r.Ok? <==> balance > 0.0 && interestRate >= 0.0 && minimumPayment > 0.0
      ensures balance <= 0.0 ==> r == Err("Balance must be greater than zero")
      ensures balance > 0.0 && interestRate < 0.0 ==> r == Err("Interest rate cannot be negative")
      ensures balance > 0.0 && interestRate >= 0.0 && minimumPayment <= 0.0 ==>
                r == Err("Minimum payment must be greater than zero")
      ensures r.Err? ==> debts == old(debts)
      ensures r.Ok? ==> && balance > 0.0 && interestRate >= 0.0 && minimumPayment > 0.0
                        && r.value == |old(debts)|
                        && debts == old(debts) + [NewDebt(name, balance, interestRate, minimumPayment)]
                        && debts[r.value].interestRate * 100.0 == interestRate
    {
      if balance <= 0.0 {
        return Err("Balance must be greater than zero");
      }
      if interestRate < 0.0 {
        return Err("Interest rate cannot be negative");
      }
      if minimumPayment <= 0.0 {
        return Err("Minimum payment must be greater than zero");
      }
      debts := debts + [NewDebt(name, balance, interestRate, minimumPayment)];
      r := Ok(|debts| - 1);
    }

    method SetAdditionalPayment(amount: real) returns (r: Outcome)
      requires Valid()
      modifies this
      ensures Valid() && debts == old(debts)
      ensures amount < 0.0 <==> r == Fail("Additional payment cannot be negative")
      ensures r.Pass? <==> amount >= 0.0
      ensures additionalPayment == if amount < 0.0 then old(additionalPayment) else amount
    {
      if amount < 0.0 {
        return Fail("Additional payment cannot be negative");
      }
      additionalPayment := amount;
      r := Pass;
    }

    /** The sum of the balances: never negative, and positive exactly when some debt is registered. */
    function TotalDebt(): (r: real)
      requires Valid()
      reads this
      ensures r >= 0.0
      ensures r > 0.0 <==> debts != []
    {
      TotalsOfAdmissible(debts);
      TotalBalance(debts)
    }

    /** The sum of the minimum payments: never negative, and positive exactly when some debt is registered. */
    function TotalMinimumPayment(): (r: real)
      requires Valid()
      reads this
      ensures r >= 0.0
      ensures r > 0.0 <==> debts != []
    {
      TotalsOfAdmissible(debts);
      TotalMinimum(debts)
    }

    /** Steps 1-2 of a month on the working copy: interest on each open debt, then its minimum payment. */
    static method ApplyInterestAndMinimumPayments(work: array<Debt>) returns (totalPaymentApplied: real)
      modifies work
      ensures work[..] == MinimumStep(old(work[..]))
      ensures totalPaymentApplied == MinimumApplied(old(work[..]))
    {
      ghost var start := work[..];
      totalPaymentApplied := 0.0;
      var i := 0;
      while i < work.Length
        invariant 0 <= i <= work.Length
        invariant forall j :: 0 <= j < work.Length ==> work[j] == if j < i then AfterMinimum(start[j]) else start[j]
        invariant totalPaymentApplied == SumOf(start[..i], MinimumPaid)
      {
        var debt := work[i];
        if debt.balance > 0.0 {
          var monthlyInterest := MonthlyInterest(debt);
          debt := debt.(balance := debt.balance + monthlyInterest);
          var payment := Min(debt.balance, debt.minimumPayment);
          assert payment == MinimumPaid(start[i]);
          debt := debt.(balance := debt.balance - payment);
          assert debt == AfterMinimum(start[i]);
          work[i] := debt;
          totalPaymentApplied := totalPaymentApplied + payment;
        } else {
          assert MinimumPaid(start[i]) == 0.0 && AfterMinimum(start[i]) == start[i];
        }
        assert work[i] == AfterMinimum(start[i]);
        assert start[..i + 1] == start[..i] + [start[i]];
        SumOfAppend(start[..i], start[i], MinimumPaid);
        i := i + 1;
      }
      assert start[..work.Length] == start;
      assert work[..] == MinimumStep(start);
    }

    /** Step 3 of a month: the whole extra payment, capped at the balance, goes to the strategy's target. */
    static method ApplyAdditionalPayment(work: array<Debt>, additionalPayment: real, strategy: Strategy)
      modifies work
      ensures work[..] == ExtraStep(old(work[..]), additionalPayment, strategy)
    {
      if additionalPayment <= 0.0 || !AnyOpen(work[..]) {
        return;
      }
      var target := Target(work[..], strategy);
      if target.Some? && target.value < work.Length {
        var k := target.value;
        var payment := Min(work[k].balance, additionalPayment);
        work[k] := work[k].(balance := work[k].balance - payment);
      }
    }

    /** One month of the simulation on the working copy, and its record. */
    static method SimulateMonth(work: array<Debt>, month: int, additionalPayment: real, s: Strategy)
      returns (monthData: MonthSnapshot)
      modifies work
      ensures work[..] == MonthEnd(old(work[..]), additionalPayment, s)
      ensures monthData == SnapshotOf(month, old(work[..]), work[..], MinimumApplied(old(work[..])), additionalPayment)
    {
      var startingBalances := work[..];
      var minimumPaymentApplied := ApplyInterestAndMinimumPayments(work);
      ApplyAdditionalPayment(work, additionalPayment, s);
      monthData := SnapshotOf(month, startingBalances, work[..], minimumPaymentApplied, additionalPayment);
    }

    /** The month-by-month simulation on a copy of the debts; the registered debts are left untouched. */
    method GeneratePaymentPlan(strategy: string, maxMonths: int) returns (r: Result<PaymentPlan>)
      ensures debts == [] ==> r == Err("No debts have been added")
      ensures debts != [] && ParseStrategy(strategy).None? ==>
                r == Err("Strategy must be either 'avalanche' or 'snowball'")
      ensures debts != [] && ParseStrategy(strategy).Some? ==>
                r == Ok(PlanOf(debts, additionalPayment, ParseStrategy(strategy).value, maxMonths))
    {
      if debts == [] {
        return Err("No debts have been added");
      }
      var parsed := ParseStrategy(strategy);
      if parsed.None? {
        return Err("Strategy must be either 'avalanche' or 'snowball'");
      }
      var s := parsed.value;
      var registered := debts;
      var work := new Debt[|registered|](i requires 0 <= i < |registered| => registered[i]);
      assert work[..] == registered;
      var month, totalInterestPaid, totalPaid, paymentPlan := RunMonths(work, additionalPayment, s, maxMonths);
      r := Ok(PaymentPlan(strategy, month, totalInterestPaid, totalPaid, TotalOriginal(work[..]), paymentPlan,
                          month < maxMonths));
    }

    /**
     * The month loop of generate_payment_plan: simulates months on the working copy while some
     * debt is open and fewer than `maxMonths` months have passed, recording each month.
     */
    static method RunMonths(work: array<Debt>, additionalPayment: real, s: Strategy, maxMonths: int)
      returns (month: int, totalInterestPaid: real, totalPaid: real, paymentPlan: seq<MonthSnapshot>)
      modifies work
      ensures Progress(work[..], month, totalInterestPaid, totalPaid, paymentPlan)
              == Simulate(Start(old(work[..])), additionalPayment, s, maxMonths)
    {
      month := 0;
      totalInterestPaid := 0.0;
      totalPaid := 0.0;
      paymentPlan := [];
      ghost var progress := Start(work[..]);
      ghost var goal := Simulate(progress, additionalPayment, s, maxMonths);
      while AnyOpen(work[..]) && month < maxMonths
        invariant progress == Progress(work[..], month, totalInterestPaid, totalPaid, paymentPlan)
        invariant Leads(progress, additionalPayment, s, maxMonths, goal)
        decreases maxMonths - month
      {
        month := month + 1;
        var monthData := SimulateMonth(work, month, additionalPayment, s);
        ghost var end := work[..];
        assert end == MonthEnd(progress.work, additionalPayment, s);
        assert monthData == SnapshotOf(progress.month + 1, progress.work, end, MinimumApplied(progress.work),
                                       additionalPayment);
        totalInterestPaid := totalInterestPaid + monthData.interestPaid;
        totalPaid := totalPaid + monthData.paymentAmount;
        paymentPlan := paymentPlan + [monthData];
        ghost var next := Progress(end, month, totalInterestPaid, totalPaid, paymentPlan);
        SimulateStep(progress, additionalPayment, s, maxMonths, goal, end, monthData, next);
        progress := next;
      }
      SimulateStops(progress, additionalPayment, s, maxMonths, goal);
    }

    /** Both plans, snowball first, and their comparison; avalanche is preferred on equal interest. */
    method CompareStrategies(maxMonths: int) returns (r: Result<Comparison>)
      ensures debts == [] ==> r == Err("No debts have been added")
      ensures debts != [] ==>
                r == Ok(Compare(PlanOf(debts, additionalPayment, Snowball, maxMonths),
                                PlanOf(debts, additionalPayment, Avalanche, maxMonths)))
    {
      if debts == [] {
        return Err("No debts have been added");
      }
      var snowball := GeneratePaymentPlan("snowball", maxMonths);
      var avalanche := GeneratePaymentPlan("avalanche", maxMonths);
      r := Ok(Compare(snowball.value, avalanche.value));
    }

    /** The amortization schedule of one registered debt, paying its minimum plus `extraPayment` monthly. */
    method AmortizationSchedule(debtIndex: int, extraPayment: real) returns (r: Result<seq<AmortizationEntry>>)
      ensures debtIndex < 0 || debtIndex >= |debts| ==> r == Err("Invalid debt index")
      ensures 0 <= debtIndex < |debts| ==> r == Ok(AmortizationOf(debts[debtIndex], extraPayment))
    {
      if debtIndex < 0 || debtIndex >= |debts| {
        return Err("Invalid debt index");
      }
      var debt := debts[debtIndex];
      var schedule: seq<AmortizationEntry> := [];
      var month := 0;
      var totalInterest := 0.0;
      while debt.balance > 0.0 && month < MaxAmortizationMonths
        invariant Amortize(debt, extraPayment, month, totalInterest, schedule)
                  == AmortizationOf(debts[debtIndex], extraPayment)
        decreases MaxAmortizationMonths - month
      {
        ghost var before := Amortize(debt, extraPayment, month, totalInterest, schedule);
        month := month + 1;
        var interest := debt.balance * (debt.interestRate / 12.0);
        assert interest == MonthlyInterest(debt);
        totalInterest := totalInterest + interest;
        debt := debt.(balance := debt.balance + interest);
        var payment := debt.minimumPayment + extraPayment;
        payment := Min(payment, debt.balance);
        debt := debt.(balance := debt.balance - payment);
        schedule := schedule + [AmortizationEntry(month, payment, payment - interest, interest, debt.balance,
                                                  totalInterest)];
        assert before == Amortize(debt, extraPayment, month, totalInterest, schedule);
      }
      r := Ok(schedule);
    }
  }
}
