/** A fixed-rate loan repaid in equal monthly instalments, and its repayment schedule. */
module Loans {
  import opened Outcomes

  /** The loan's terms, with the annual rate already divided by 100. */
  datatype LoanRepaymentCalculator = LoanRepaymentCalculator(principal: real, annualInterestRate: real, years: int)

  datatype RepaymentEntry = RepaymentEntry(month: int, principalPayment: real, interestPayment: real, remainingBalance: real)

  predicate ValidLoan(l: LoanRepaymentCalculator)
  {
    l.principal > 0.0 && l.annualInterestRate >= 0.0 && l.years > 0
  }

  /**
   * The constructor: rejects a non-positive principal, a negative rate and a non-positive
   * duration, in that order, and stores the rate given in percent as a fraction.
   */
  function NewLoan(principal: real, annualInterestRate: real, years: int): (r: Result<LoanRepaymentCalculator>)
    ensures r.Ok? <==> principal > 0.0 && annualInterestRate >= 0.0 && years > 0
    ensures principal <= 0.0 ==> r == Err("Principal must be greater than zero.")
    ensures principal > 0.0 && annualInterestRate < 0.0 ==> r == Err("Annual interest rate must be non-negative.")
    ensures principal > 0.0 && annualInterestRate >= 0.0 && years <= 0 ==> r == Err("Loan duration must be greater than zero.")
    ensures r.Ok? ==> ValidLoan(r.value) && r.value.principal == principal && r.value.years == years
    ensures r.Ok? ==> r.value.annualInterestRate * 100.0 == annualInterestRate
  {
    if principal <= 0.0 then Err("Principal must be greater than zero.")
    else if annualInterestRate < 0.0 then Err("Annual interest rate must be non-negative.")
    else if years <= 0 then Err("Loan duration must be greater than zero.")
    else Ok(LoanRepaymentCalculator(principal, annualInterestRate / 100.0, years))
  }

  function MonthlyRate(l: LoanRepaymentCalculator): real { l.annualInterestRate / 12.0 }

  function TotalPayments(l: LoanRepaymentCalculator): int { l.years * 12 }

  /** x to the power n. */
  function Pow(x: real, n: nat): real
  {
    if n == 0 then 1.0 else x * Pow(x, n - 1)
  }

  lemma {:induction false} PowAboveOne(x: real, n: nat)
    requires x > 1.0 && n > 0
    ensures Pow(x, n) > 1.0
  {
    if n > 1 {
      PowAboveOne(x, n - 1);
      assert x * Pow(x, n - 1) > 1.0 * Pow(x, n - 1);
    }
  }

  /**
   * The fixed instalment: the principal spread evenly when the rate is zero, otherwise the
   * annuity payment P·r·(1+r)^n / ((1+r)^n − 1). It is always positive.
   */
  function CalculateMonthlyPayment(l: LoanRepaymentCalculator): (r: real)
    requires ValidLoan(l)
    ensures r > 0.0
  {
    var rate := MonthlyRate(l);
    var n := TotalPayments(l);
    if rate == 0.0 then l.principal / n as real
    else
      var growth := Pow(1.0 + rate, n);
      PowAboveOne(1.0 + rate, n);
      assert l.principal * rate * growth > 0.0;
      (l.principal * rate * growth) / (growth - 1.0)
  }

  /**
   * The unrounded balance of a loan of `principal` at monthly rate `rate` after `k` instalments
   * of `payment`, each month's interest added first.
   */
  function BalanceAfter(principal: real, rate: real, payment: real, k: nat): real
  {
    if k == 0 then principal
    else
      var before := BalanceAfter(principal, rate, payment, k - 1);
      before - (payment - before * rate)
  }

  /** The balance in closed form, scaled by the rate: r·B(k) = r·P·(1+r)^k − payment·((1+r)^k − 1). */
  lemma {:induction false} BalanceClosedForm(principal: real, rate: real, payment: real, k: nat)
    ensures rate * BalanceAfter(principal, rate, payment, k)
            == rate * principal * Pow(1.0 + rate, k) - payment * (Pow(1.0 + rate, k) - 1.0)
  {
    if k > 0 {
      BalanceClosedForm(principal, rate, payment, k - 1);
      BalanceStep(principal, rate, payment, k);
      ClosedFormStep(rate, principal, payment, BalanceAfter(principal, rate, payment, k - 1),
                     BalanceAfter(principal, rate, payment, k), Pow(1.0 + rate, k - 1), Pow(1.0 + rate, k));
    }
  }

  /** One month's change of balance and of the growth factor. */
  lemma BalanceStep(principal: real, rate: real, payment: real, k: nat)
    requires k > 0
    ensures BalanceAfter(principal, rate, payment, k)
            == BalanceAfter(principal, rate, payment, k - 1) - (payment - BalanceAfter(principal, rate, payment, k - 1) * rate)
    ensures Pow(1.0 + rate, k) == (1.0 + rate) * Pow(1.0 + rate, k - 1)
  {
  }

  /** One month of the closed-form recurrence, as plain algebra. */
  lemma ClosedFormStep(r: real, p: real, payment: real, b: real, b': real, g: real, g': real)
    requires b' == b - (payment - b * r) && g' == (1.0 + r) * g
    requires r * b == r * p * g - payment * (g - 1.0)
    ensures r * b' == r * p * g' - payment * (g' - 1.0)
  {
    calc {
      r * b';
      (r * b) * (1.0 + r) - r * payment;
      (r * p * g - payment * (g - 1.0)) * (1.0 + r) - r * payment;
      r * p * g * (1.0 + r) - payment * ((g - 1.0) * (1.0 + r) + r);
      r * p * g' - payment * (g' - 1.0);
    }
  }

  /** With no interest the balance falls by one instalment a month. */
  lemma {:induction false} BalanceWithoutInterest(principal: real, payment: real, k: nat)
    ensures BalanceAfter(principal, 0.0, payment, k) == principal - k as real * payment
  {
    if k > 0 {
      BalanceWithoutInterest(principal, payment, k - 1);
    }
  }

  /** Paying the computed instalment every month for the loan's whole term leaves nothing owing. */
  lemma PaymentRetiresLoan(l: LoanRepaymentCalculator)
    requires ValidLoan(l)
    ensures BalanceAfter(l.principal, MonthlyRate(l), CalculateMonthlyPayment(l), TotalPayments(l)) == 0.0
  {
    var r := MonthlyRate(l);
    var n := TotalPayments(l);
    var payment := CalculateMonthlyPayment(l);
    if r == 0.0 {
      BalanceWithoutInterest(l.principal, payment, n);
      assert n as real * (l.principal / n as real) == l.principal;
    } else {
      var growth := Pow(1.0 + r, n);
      PowAboveOne(1.0 + r, n);
      BalanceClosedForm(l.principal, r, payment, n);
      assert payment * (growth - 1.0) == l.principal * r * growth;
      assert r * BalanceAfter(l.principal, r, payment, n) == 0.0;
    }
  }

  /** The schedule entry for month k + 1: the unrounded amounts of that month, passed through `round2`. */
  ghost predicate EntryMatches(l: LoanRepaymentCalculator, round2: real -> real, e: RepaymentEntry, k: nat)
  {
    ValidLoan(l) &&
    var payment := CalculateMonthlyPayment(l);
    var before := BalanceAfter(l.principal, MonthlyRate(l), payment, k);
    e.month == k + 1 &&
    e.interestPayment == round2(before * MonthlyRate(l)) &&
    e.principalPayment == round2(payment - before * MonthlyRate(l)) &&
    e.remainingBalance == round2(BalanceAfter(l.principal, MonthlyRate(l), payment, k + 1))
  }

  /**
   * One entry per month of the term, months 1 to years·12 in order. Each month's interest is
   * charged on the unrounded balance and the rest of the instalment repays principal; the
   * rounding, given as `round2` (two decimal places), touches only the recorded figures.
   */
  method GenerateRepaymentSchedule(l: LoanRepaymentCalculator, round2: real -> real) returns (schedule: seq<RepaymentEntry>)
    requires ValidLoan(l)
    ensures |schedule| == TotalPayments(l)
    ensures forall k :: 0 <= k < |schedule| ==> EntryMatches(l, round2, schedule[k], k)
  {
    var monthlyPayment := CalculateMonthlyPayment(l);
    var monthlyInterestRate := MonthlyRate(l);
    var remainingBalance := l.principal;
    schedule := [];
    for month := 1 to l.years * 12 + 1
      invariant |schedule| == month - 1
      invariant remainingBalance == BalanceAfter(l.principal, MonthlyRate(l), monthlyPayment, month - 1)
      invariant forall k :: 0 <= k < |schedule| ==> EntryMatches(l, round2, schedule[k], k)
    {
      ghost var opening := remainingBalance;
      var interestPayment := remainingBalance * monthlyInterestRate;
      var principalPayment := monthlyPayment - interestPayment;
      remainingBalance := remainingBalance - principalPayment;
      ghost var before := schedule;
      schedule := schedule + [RepaymentEntry(month, round2(principalPayment), round2(interestPayment), round2(remainingBalance))];
      assert opening == BalanceAfter(l.principal, MonthlyRate(l), monthlyPayment, month - 1);
      assert interestPayment == opening * MonthlyRate(l);
      assert principalPayment == monthlyPayment - opening * MonthlyRate(l);
      assert remainingBalance == BalanceAfter(l.principal, MonthlyRate(l), monthlyPayment, month);
      assert monthlyPayment - opening * MonthlyRate(l)
          == CalculateMonthlyPayment(l) - BalanceAfter(l.principal, MonthlyRate(l), CalculateMonthlyPayment(l), month - 1) * MonthlyRate(l);
      assert EntryMatches(l, round2, schedule[month - 1], month - 1);
      assert forall k :: 0 <= k < |before| ==> schedule[k] == before[k];
    }
  }

  /** The last entry records the rounded value of a zero balance. */
  lemma ScheduleEndsPaidOff(l: LoanRepaymentCalculator, round2: real -> real, schedule: seq<RepaymentEntry>)
    requires ValidLoan(l)
    requires |schedule| == TotalPayments(l)
    requires forall k :: 0 <= k < |schedule| ==> EntryMatches(l, round2, schedule[k], k)
    ensures schedule[|schedule| - 1].remainingBalance == round2(0.0)
  {
    assert EntryMatches(l, round2, schedule[|schedule| - 1], |schedule| - 1);
    PaymentRetiresLoan(l);
  }
}
