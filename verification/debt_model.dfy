/**
 * The multi-debt repayment simulation of the debt manager, as values:
 * debt records, the avalanche/snowball allocation policy, one simulated month,
 * the month-by-month payment plan, the strategy comparison and the single-debt
 * amortization schedule. The imperative debt manager (DebtManagement) is proved
 * against the functions here; the lemmas state what the simulation guarantees.
 */
module DebtModel {
  import opened Outcomes
  import opened Money

  // ---------------------------------------------------------------------------
  // Debt records
  // ---------------------------------------------------------------------------

  /** One tracked debt; `interestRate` is the annual rate as a fraction (18% is 0.18). */
  datatype Debt = Debt(name: string, balance: real, interestRate: real,
                       minimumPayment: real, originalBalance: real)

  function BalanceOf(d: Debt): real { d.balance }
  function MinimumOf(d: Debt): real { d.minimumPayment }
  function OriginalOf(d: Debt): real { d.originalBalance }

  /** A debt is open while its balance is strictly positive. */
  predicate Open(d: Debt) { d.balance > 0.0 }

  predicate AnyOpen(ds: seq<Debt>) { exists i :: 0 <= i < |ds| && Open(ds[i]) }

  /** The record add_debt stores: the percentage becomes a fraction, the balance is remembered. */
  function NewDebt(name: string, balance: real, ratePercent: real, minimumPayment: real): Debt
  {
    Debt(name, balance, ratePercent / 100.0, minimumPayment, balance)
  }

  /** What add_debt's checks guarantee of every registered debt. */
  predicate Admissible(d: Debt)
  {
    d.balance > 0.0 && d.interestRate >= 0.0 && d.minimumPayment > 0.0 && d.originalBalance == d.balance
  }

  /** The fields a simulation never changes. */
  predicate SameTerms(a: Debt, b: Debt)
  {
    a.name == b.name && a.interestRate == b.interestRate &&
    a.minimumPayment == b.minimumPayment && a.originalBalance == b.originalBalance
  }

  predicate NonNegative(ds: seq<Debt>) { forall i :: 0 <= i < |ds| ==> ds[i].balance >= 0.0 }

  function TotalBalance(ds: seq<Debt>): real { SumOf(ds, BalanceOf) }
  function TotalMinimum(ds: seq<Debt>): real { SumOf(ds, MinimumOf) }
  function TotalOriginal(ds: seq<Debt>): real { SumOf(ds, OriginalOf) }

  /** Totals over registered debts: balances and minimums are positive, so are their sums once any exist. */
  lemma TotalsOfAdmissible(ds: seq<Debt>)
    requires forall i :: 0 <= i < |ds| ==> Admissible(ds[i])
    ensures TotalBalance(ds) >= 0.0 && (TotalBalance(ds) > 0.0 <==> ds != [])
    ensures TotalMinimum(ds) >= 0.0 && (TotalMinimum(ds) > 0.0 <==> ds != [])
  {
    if ds != [] {
      SumOfPositive(ds, BalanceOf);
      SumOfPositive(ds, MinimumOf);
    }
  }

  // ---------------------------------------------------------------------------
  // Month, steps 1-2: interest accrual and minimum payments
  // ---------------------------------------------------------------------------

  function MonthlyInterest(d: Debt): real { d.balance * (d.interestRate / 12.0) }

  /** The balance after this month's interest is added. */
  function Accrued(d: Debt): real { d.balance + MonthlyInterest(d) }

  /** The minimum payment actually charged: capped at the interest-inflated balance; none on a closed debt. */
  function MinimumPaid(d: Debt): real
  {
    if Open(d) then Min(Accrued(d), d.minimumPayment) else 0.0
  }

  /** Interest accrued this month (only open debts accrue). */
  function OpenInterest(d: Debt): real { if Open(d) then MonthlyInterest(d) else 0.0 }

  function AfterMinimum(d: Debt): Debt
  {
    if Open(d) then d.(balance := Accrued(d) - MinimumPaid(d)) else d
  }

  /** Interest and minimum payment applied to every debt. */
  function MinimumStep(ds: seq<Debt>): (r: seq<Debt>)
    ensures |r| == |ds|
  {
    seq(|ds|, i requires 0 <= i < |ds| => AfterMinimum(ds[i]))
  }

  /**
   * Steps 1-2 keep every debt's terms and leave closed debts untouched; an open debt ends the step
   * with a non-negative balance, lowered by its full minimum when the interest-inflated balance
   * covers it and cleared otherwise.
   */
  lemma MinimumStepSpec(ds: seq<Debt>)
    ensures forall i :: 0 <= i < |ds| ==> SameTerms(MinimumStep(ds)[i], ds[i])
    ensures forall i :: 0 <= i < |ds| && !Open(ds[i]) ==> MinimumStep(ds)[i] == ds[i]
    ensures forall i :: 0 <= i < |ds| && Open(ds[i]) ==> MinimumStep(ds)[i].balance >= 0.0
    ensures forall i :: 0 <= i < |ds| && Open(ds[i]) ==>
              if Accrued(ds[i]) >= ds[i].minimumPayment
              then MinimumStep(ds)[i].balance == Accrued(ds[i]) - ds[i].minimumPayment
              else MinimumStep(ds)[i].balance == 0.0
  {
  }

  /** The total of the minimum payments charged (the loop's `total_payment_applied`). */
  function MinimumApplied(ds: seq<Debt>): real { SumOf(ds, MinimumPaid) }

  function InterestAccrued(ds: seq<Debt>): real { SumOf(ds, OpenInterest) }

  /** Balance accounting of steps 1-2: interest is added, the charged minimums are removed. */
  lemma {:induction false} MinimumStepAccounting(ds: seq<Debt>)
    ensures TotalBalance(MinimumStep(ds)) == TotalBalance(ds) + InterestAccrued(ds) - MinimumApplied(ds)
  {
    if ds != [] {
      var n := |ds| - 1;
      assert MinimumStep(ds)[..n] == MinimumStep(ds[..n]);
      MinimumStepAccounting(ds[..n]);
    }
  }

  /** With non-negative rates and minimums, the charged total lies between 0 and the sum of the
      minimums, and equals that sum when every debt is open and can absorb its full minimum. */
  lemma {:induction false} MinimumAppliedBounds(ds: seq<Debt>)
    requires forall i :: 0 <= i < |ds| ==> ds[i].interestRate >= 0.0 && ds[i].minimumPayment >= 0.0
    ensures 0.0 <= MinimumApplied(ds) <= TotalMinimum(ds)
    ensures (forall i :: 0 <= i < |ds| ==> Open(ds[i]) && Accrued(ds[i]) >= ds[i].minimumPayment)
            ==> MinimumApplied(ds) == TotalMinimum(ds)
  {
    if ds != [] {
      var n := |ds| - 1;
      var d := ds[n];
      MinimumAppliedBounds(ds[..n]);
      if Open(d) {
        assert MonthlyInterest(d) >= 0.0 by {
          assert d.balance >= 0.0 && d.interestRate / 12.0 >= 0.0;
        }
      }
    }
  }

  // ---------------------------------------------------------------------------
  // Month, step 3: the allocation policy and the extra payment
  // ---------------------------------------------------------------------------

  datatype Strategy = Avalanche | Snowball

  function StrategyName(s: Strategy): string
  {
    match s
    case Avalanche => "avalanche"
    case Snowball => "snowball"
  }

  /** The strategy tags generate_payment_plan accepts; anything else is rejected. */
  function ParseStrategy(name: string): (r: Option<Strategy>)
    ensures r.None? <==> name != "avalanche" && name != "snowball"
    ensures r.Some? ==> StrategyName(r.value) == name
  {
    if name == "avalanche" then Some(Avalanche)
    else if name == "snowball" then Some(Snowball)
    else None
  }

  /** `a` is strictly preferred over `b`: a higher rate (avalanche) or a lower balance (snowball). */
  predicate Preferred(s: Strategy, a: Debt, b: Debt)
  {
    match s
    case Avalanche => a.interestRate > b.interestRate
    case Snowball => a.balance < b.balance
  }

  /**
   * Python's max/min with a key return the first extremal element of the open debts;
   * this scan keeps the current choice unless a later open debt is strictly preferred.
   */
  function Scan(ds: seq<Debt>, s: Strategy, i: nat, best: Option<nat>): Option<nat>
    requires i <= |ds|
    requires best.Some? ==> best.value < i
    decreases |ds| - i
  {
    if i == |ds| then best
    else if !Open(ds[i]) then Scan(ds, s, i + 1, best)
    else if best.None? || Preferred(s, ds[i], ds[best.value]) then Scan(ds, s, i + 1, Some(i))
    else Scan(ds, s, i + 1, best)
  }

  /** The debt that receives the extra payment, if any debt is open. */
  function Target(ds: seq<Debt>, s: Strategy): Option<nat>
  {
    Scan(ds, s, 0, None)
  }

  /**
   * Declarative policy: `k` is open, no open debt is strictly preferred over it,
   * and every open debt before it is strictly worse (first in list on ties).
   */
  ghost predicate IsTarget(ds: seq<Debt>, s: Strategy, k: nat)
  {
    IsTargetWithin(ds, s, |ds|, k)
  }

  ghost predicate IsTargetWithin(ds: seq<Debt>, s: Strategy, n: nat, k: nat)
    requires n <= |ds|
  {
    && k < n && Open(ds[k])
    && (forall j :: 0 <= j < n && Open(ds[j]) ==> !Preferred(s, ds[j], ds[k]))
    && (forall j :: 0 <= j < k && Open(ds[j]) ==> Preferred(s, ds[k], ds[j]))
  }

  ghost predicate AnyOpenWithin(ds: seq<Debt>, n: nat)
    requires n <= |ds|
  {
    exists j :: 0 <= j < n && Open(ds[j])
  }

  lemma {:induction false} ScanFindsTarget(ds: seq<Debt>, s: Strategy, i: nat, best: Option<nat>)
    requires i <= |ds|
    requires best.Some? ==> best.value < i
    requires best.None? <==> !AnyOpenWithin(ds, i)
    requires best.Some? ==> IsTargetWithin(ds, s, i, best.value)
    ensures Scan(ds, s, i, best).None? <==> !AnyOpenWithin(ds, |ds|)
    ensures Scan(ds, s, i, best).Some? ==> IsTargetWithin(ds, s, |ds|, Scan(ds, s, i, best).value)
    decreases |ds| - i
  {
    if i < |ds| {
      if !Open(ds[i]) {
        ScanFindsTarget(ds, s, i + 1, best);
      } else if best.None? || Preferred(s, ds[i], ds[best.value]) {
        if best.Some? {
          var b := best.value;
          forall j | 0 <= j < i && Open(ds[j])
            ensures Preferred(s, ds[i], ds[j])
          {
            assert !Preferred(s, ds[j], ds[b]);
          }
        }
        ScanFindsTarget(ds, s, i + 1, Some(i));
      } else {
        ScanFindsTarget(ds, s, i + 1, best);
      }
    }
  }

  /** The selection is exactly the declarative policy, and is None only when no debt is open. */
  lemma TargetSpec(ds: seq<Debt>, s: Strategy)
    ensures Target(ds, s).None? <==> !AnyOpen(ds)
    ensures forall k: nat :: Target(ds, s) == Some(k) <==> IsTarget(ds, s, k)
  {
    ScanFindsTarget(ds, s, 0, None);
    forall k: nat | IsTarget(ds, s, k)
      ensures Target(ds, s) == Some(k)
    {
      assert AnyOpenWithin(ds, |ds|);
    }
  }

  /** The amount the target debt absorbs; the rest of the extra payment is not spent. */
  function ExtraApplied(ds: seq<Debt>, extra: real, s: Strategy): real
  {
    if extra <= 0.0 || !AnyOpen(ds) then 0.0
    else match Target(ds, s)
      case None => 0.0
      case Some(k) => if k < |ds| then Min(ds[k].balance, extra) else 0.0
  }

  /** Step 3: the extra payment goes to the target only, capped at its balance. */
  function ExtraStep(ds: seq<Debt>, extra: real, s: Strategy): (r: seq<Debt>)
    ensures |r| == |ds|
  {
    if extra <= 0.0 || !AnyOpen(ds) then ds
    else match Target(ds, s)
      case None => ds
      case Some(k) =>
        if k < |ds| then ds[k := ds[k].(balance := ds[k].balance - Min(ds[k].balance, extra))] else ds
  }

  /**
   * Nothing happens when the amount is not positive or no debt is open; otherwise exactly the
   * target changes, by min(balance, extra), every other debt is untouched and the leftover is dropped.
   */
  lemma ExtraStepSpec(ds: seq<Debt>, extra: real, s: Strategy)
    ensures extra <= 0.0 || !AnyOpen(ds) ==> ExtraStep(ds, extra, s) == ds && ExtraApplied(ds, extra, s) == 0.0
    ensures extra > 0.0 && AnyOpen(ds) ==>
      && Target(ds, s).Some?
      && var k := Target(ds, s).value;
      && IsTarget(ds, s, k)
      && ExtraApplied(ds, extra, s) == Min(ds[k].balance, extra)
      && ExtraStep(ds, extra, s)[k] == ds[k].(balance := ds[k].balance - Min(ds[k].balance, extra))
      && (forall j :: 0 <= j < |ds| && j != k ==> ExtraStep(ds, extra, s)[j] == ds[j])
    ensures forall j :: 0 <= j < |ds| ==> SameTerms(ExtraStep(ds, extra, s)[j], ds[j])
    ensures forall j :: 0 <= j < |ds| && !Open(ds[j]) ==> ExtraStep(ds, extra, s)[j] == ds[j]
    ensures NonNegative(ds) ==> NonNegative(ExtraStep(ds, extra, s))
    ensures 0.0 <= ExtraApplied(ds, extra, s) <= Max(extra, 0.0)
    ensures TotalBalance(ExtraStep(ds, extra, s)) == TotalBalance(ds) - ExtraApplied(ds, extra, s)
  {
    TargetSpec(ds, s);
    if extra > 0.0 && AnyOpen(ds) {
      var k := Target(ds, s).value;
      assert IsTarget(ds, s, k);
      SumOfUpdate(ds, k, ds[k].(balance := ds[k].balance - Min(ds[k].balance, extra)), BalanceOf);
    }
  }

  // ---------------------------------------------------------------------------
  // Month, steps 4-5: the snapshot
  // ---------------------------------------------------------------------------

  /** One debt in a month's breakdown. */
  datatype DebtStatus = DebtStatus(name: string, balance: real, paidThisMonth: real)

  datatype MonthSnapshot = MonthSnapshot(month: int, totalBalance: real, interestPaid: real,
                                         paymentAmount: real, debts: seq<DebtStatus>)

  function InterestOf(m: MonthSnapshot): real { m.interestPaid }
  function PaymentOf(m: MonthSnapshot): real { m.paymentAmount }

  /** The reported interest before the floor: for each debt open at the start of the month,
      end balance minus (start balance minus minimum payment). */
  function ReconciledInterest(start: seq<Debt>, end: seq<Debt>): real
    requires |start| == |end|
  {
    if start == [] then 0.0
    else
      var n := |start| - 1;
      ReconciledInterest(start[..n], end[..n]) +
        (if Open(start[n]) then end[n].balance - (start[n].balance - start[n].minimumPayment) else 0.0)
  }

  /** Minimums charged plus the whole extra amount, capped at what was owed at the start of the month. */
  function MonthPaymentAmount(start: seq<Debt>, applied: real, extra: real): real
  {
    if applied + extra > TotalBalance(start) then TotalBalance(start) else applied + extra
  }

  function Statuses(start: seq<Debt>, end: seq<Debt>): seq<DebtStatus>
    requires |start| == |end|
  {
    seq(|end|, i requires 0 <= i < |end| => DebtStatus(end[i].name, end[i].balance, start[i].balance - end[i].balance))
  }

  /** The record of one simulated month. */
  function SnapshotOf(month: int, start: seq<Debt>, end: seq<Debt>, applied: real, extra: real): (r: MonthSnapshot)
    requires |start| == |end|
    ensures r.month == month && r.totalBalance == TotalBalance(end)
    ensures r.interestPaid >= 0.0 && r.interestPaid >= ReconciledInterest(start, end)
    ensures r.interestPaid == 0.0 || r.interestPaid == ReconciledInterest(start, end)
    ensures r.paymentAmount <= TotalBalance(start) && r.paymentAmount <= applied + extra
    ensures r.paymentAmount == TotalBalance(start) || r.paymentAmount == applied + extra
    ensures |r.debts| == |end|
  {
    MonthSnapshot(month, TotalBalance(end), Max(0.0, ReconciledInterest(start, end)),
                  MonthPaymentAmount(start, applied, extra), Statuses(start, end))
  }

  /** Each debt appears in the month's breakdown under its name, with its closing balance and
      the amount by which that balance fell during the month. */
  lemma SnapshotDebts(month: int, start: seq<Debt>, end: seq<Debt>, applied: real, extra: real)
    requires |start| == |end|
    ensures var r := SnapshotOf(month, start, end, applied, extra);
      forall i :: 0 <= i < |end| ==>
        r.debts[i].name == end[i].name && r.debts[i].balance == end[i].balance &&
        r.debts[i].balance + r.debts[i].paidThisMonth == start[i].balance
  {
  }

  // ---------------------------------------------------------------------------
  // The simulation loop and the payment plan
  // ---------------------------------------------------------------------------

  /** The working copy of the debts after one whole month. */
  function MonthEnd(ds: seq<Debt>, extra: real, s: Strategy): (r: seq<Debt>)
    ensures |r| == |ds|
  {
    ExtraStep(MinimumStep(ds), extra, s)
  }

  /** The loop's state: working copy, month counter, running totals and recorded months. */
  datatype Progress = Progress(work: seq<Debt>, month: int, totalInterest: real, totalPaid: real,
                               snapshots: seq<MonthSnapshot>)

  function Start(debts: seq<Debt>): Progress { Progress(debts, 0, 0.0, 0.0, []) }

  /** One iteration of the loop body. */
  function NextMonth(p: Progress, extra: real, s: Strategy): Progress
  {
    var end := MonthEnd(p.work, extra, s);
    var snap := SnapshotOf(p.month + 1, p.work, end, MinimumApplied(p.work), extra);
    Progress(end, p.month + 1, p.totalInterest + snap.interestPaid, p.totalPaid + snap.paymentAmount,
             p.snapshots + [snap])
  }

  /** The loop: runs while some debt is open and fewer than maxMonths months have passed. */
  function Simulate(p: Progress, extra: real, s: Strategy, maxMonths: int): Progress
    decreases maxMonths - p.month
  {
    if AnyOpen(p.work) && p.month < maxMonths then Simulate(NextMonth(p, extra, s), extra, s, maxMonths)
    else p
  }

  /** One unfolding of the loop, for callers that step through it. */
  lemma SimulateUnfold(p: Progress, extra: real, s: Strategy, maxMonths: int)
    ensures Simulate(p, extra, s, maxMonths)
            == if AnyOpen(p.work) && p.month < maxMonths then Simulate(NextMonth(p, extra, s), extra, s, maxMonths)
               else p
  {
  }

  /** The loop body's effect, assembled from one month's working copy and record. */
  lemma NextMonthFrom(p: Progress, extra: real, s: Strategy, end: seq<Debt>, snap: MonthSnapshot)
    requires end == MonthEnd(p.work, extra, s)
    requires snap == SnapshotOf(p.month + 1, p.work, end, MinimumApplied(p.work), extra)
    ensures NextMonth(p, extra, s)
            == Progress(end, p.month + 1, p.totalInterest + snap.interestPaid, p.totalPaid + snap.paymentAmount,
                        p.snapshots + [snap])
  {
  }

  /** The loop, started from `p`, ends in `goal`. */
  ghost predicate Leads(p: Progress, extra: real, s: Strategy, maxMonths: int, goal: Progress)
  {
    Simulate(p, extra, s, maxMonths) == goal
  }

  /** One loop iteration, assembled from the month's working copy and record, keeps the loop's outcome. */
  lemma SimulateStep(p: Progress, extra: real, s: Strategy, maxMonths: int, goal: Progress,
                     end: seq<Debt>, snap: MonthSnapshot, next: Progress)
    requires Leads(p, extra, s, maxMonths, goal)
    requires AnyOpen(p.work) && p.month < maxMonths
    requires end == MonthEnd(p.work, extra, s)
    requires snap == SnapshotOf(p.month + 1, p.work, end, MinimumApplied(p.work), extra)
    requires next == Progress(end, p.month + 1, p.totalInterest + snap.interestPaid, p.totalPaid + snap.paymentAmount,
                              p.snapshots + [snap])
    ensures Leads(next, extra, s, maxMonths, goal)
  {
    SimulateUnfold(p, extra, s, maxMonths);
    NextMonthFrom(p, extra, s, end, snap);
  }

  /** Once the loop condition fails, the loop's outcome is the current state. */
  lemma SimulateStops(p: Progress, extra: real, s: Strategy, maxMonths: int, goal: Progress)
    requires Leads(p, extra, s, maxMonths, goal)
    requires !(AnyOpen(p.work) && p.month < maxMonths)
    ensures p == goal
  {
    SimulateUnfold(p, extra, s, maxMonths);
  }

  datatype PaymentPlan = PaymentPlan(strategy: string, monthsToPayoff: int, totalInterestPaid: real,
                                     totalPaid: real, originalDebt: real, paymentPlan: seq<MonthSnapshot>,
                                     paidOffSuccessfully: bool)

  /** The simulation's working copy when the loop stops. */
  function FinalDebts(debts: seq<Debt>, extra: real, s: Strategy, maxMonths: int): seq<Debt>
  {
    Simulate(Start(debts), extra, s, maxMonths).work
  }

  /** The payment plan generate_payment_plan returns for valid inputs. */
  function PlanOf(debts: seq<Debt>, extra: real, s: Strategy, maxMonths: int): PaymentPlan
  {
    var q := Simulate(Start(debts), extra, s, maxMonths);
    PaymentPlan(StrategyName(s), q.month, q.totalInterest, q.totalPaid, TotalOriginal(q.work), q.snapshots,
                q.month < maxMonths)
  }

  // ---------------------------------------------------------------------------
  // Properties of one month
  // ---------------------------------------------------------------------------

  /** One month keeps every debt's terms, leaves closed debts untouched and keeps balances non-negative. */
  lemma MonthEndSpec(ds: seq<Debt>, extra: real, s: Strategy)
    ensures forall i :: 0 <= i < |ds| ==> SameTerms(MonthEnd(ds, extra, s)[i], ds[i])
    ensures forall i :: 0 <= i < |ds| && !Open(ds[i]) ==> MonthEnd(ds, extra, s)[i] == ds[i]
    ensures NonNegative(ds) ==> NonNegative(MonthEnd(ds, extra, s))
  {
    var mid := MinimumStep(ds);
    MinimumStepSpec(ds);
    ExtraStepSpec(mid, extra, s);
    assert forall i :: 0 <= i < |ds| && !Open(ds[i]) ==> !Open(mid[i]);
  }

  /** The part of an open debt's minimum that the step could not charge, because the balance after
      interest was smaller than the minimum. */
  function Shortfall(d: Debt): real { if Open(d) then d.minimumPayment - MinimumPaid(d) else 0.0 }

  /** Changing one closing balance moves the reconciled figure by the change, if that debt was open. */
  lemma {:induction false} ReconciledUpdate(start: seq<Debt>, end: seq<Debt>, k: nat, x: Debt)
    requires |start| == |end| && k < |end|
    ensures ReconciledInterest(start, end[k := x]) ==
            ReconciledInterest(start, end) + (if Open(start[k]) then x.balance - end[k].balance else 0.0)
  {
    var n := |start| - 1;
    if k == n {
      assert end[k := x][..n] == end[..n];
    } else {
      assert end[k := x][..n] == end[..n][k := x];
      ReconciledUpdate(start[..n], end[..n], k, x);
    }
  }

  /** After interest and minimums alone, the reconciled figure is the interest accrued plus the shortfalls. */
  lemma {:induction false} ReconciledAfterMinimums(start: seq<Debt>)
    ensures ReconciledInterest(start, MinimumStep(start)) == InterestAccrued(start) + SumOf(start, Shortfall)
  {
    if start != [] {
      var n := |start| - 1;
      assert MinimumStep(start)[..n] == MinimumStep(start[..n]);
      ReconciledAfterMinimums(start[..n]);
      assert MinimumStep(start)[n] == AfterMinimum(start[n]);
    }
  }

  /**
   * The month's interest figure before its floor at zero: the interest accrued, plus the minimum that
   * nearly cleared debts could not absorb, minus the extra payment.
   */
  lemma ReportedInterest(start: seq<Debt>, extra: real, s: Strategy)
    ensures ReconciledInterest(start, MonthEnd(start, extra, s)) ==
            InterestAccrued(start) + SumOf(start, Shortfall) - ExtraApplied(MinimumStep(start), extra, s)
  {
    var mid := MinimumStep(start);
    ReconciledAfterMinimums(start);
    ExtraStepSpec(mid, extra, s);
    if extra > 0.0 && AnyOpen(mid) {
      var k := Target(mid, s).value;
      MinimumStepSpec(start);
      assert Open(start[k]);
      ReconciledUpdate(start, mid, k, mid[k].(balance := mid[k].balance - Min(mid[k].balance, extra)));
    }
  }

  /**
   * When every open debt absorbed its whole minimum, the month's reported interest never exceeds the
   * interest accrued, and an extra payment that reaches a debt pushes it strictly below a positive
   * accrual.
   */
  lemma ReportedInterestBelowAccrued(month: int, start: seq<Debt>, extra: real, s: Strategy)
    requires SumOf(start, Shortfall) == 0.0
    ensures var snap := SnapshotOf(month, start, MonthEnd(start, extra, s), MinimumApplied(start), extra);
      && snap.interestPaid <= Max(0.0, InterestAccrued(start))
      && (InterestAccrued(start) > 0.0 && ExtraApplied(MinimumStep(start), extra, s) > 0.0 ==>
            snap.interestPaid < InterestAccrued(start))
  {
    ReportedInterest(start, extra, s);
    ExtraStepSpec(MinimumStep(start), extra, s);
  }

  /** The shape of the loop's state. */
  ghost predicate Shaped(p: Progress)
  {
    && p.month >= 0
    && |p.snapshots| == p.month
    && (forall k :: 0 <= k < |p.snapshots| ==> p.snapshots[k].month == k + 1)
  }

  lemma {:induction false} SimulateShape(p: Progress, extra: real, s: Strategy, maxMonths: int)
    requires Shaped(p)
    ensures var q := Simulate(p, extra, s, maxMonths);
      && Shaped(q)
      && p.month <= q.month <= (if maxMonths > p.month then maxMonths else p.month)
      && q.snapshots[..|p.snapshots|] == p.snapshots
      && (q.month < maxMonths ==> !AnyOpen(q.work))
    decreases maxMonths - p.month
  {
    if AnyOpen(p.work) && p.month < maxMonths {
      var n := NextMonth(p, extra, s);
      SimulateShape(n, extra, s, maxMonths);
      var q := Simulate(n, extra, s, maxMonths);
      assert q.snapshots[..|p.snapshots|] == q.snapshots[..|n.snapshots|][..|p.snapshots|];
    }
  }

  /**
   * The loop is bounded by maxMonths, records one snapshot per month numbered 1..n, reports n as
   * months_to_payoff, and `paid_off_successfully` is n < maxMonths: when it is true every debt is
   * paid off; when it is false the cap was reached.
   */
  lemma PlanShape(debts: seq<Debt>, extra: real, s: Strategy, maxMonths: int)
    ensures var plan := PlanOf(debts, extra, s, maxMonths);
      && plan.strategy == StrategyName(s)
      && 0 <= plan.monthsToPayoff == |plan.paymentPlan|
      && (maxMonths >= 0 ==> plan.monthsToPayoff <= maxMonths)
      && (maxMonths < 0 ==> plan.monthsToPayoff == 0)
      && (forall k :: 0 <= k < |plan.paymentPlan| ==> plan.paymentPlan[k].month == k + 1)
      && (plan.paidOffSuccessfully <==> plan.monthsToPayoff < maxMonths)
      && (plan.paidOffSuccessfully ==> !AnyOpen(FinalDebts(debts, extra, s, maxMonths)))
      && (!plan.paidOffSuccessfully && maxMonths >= 0 ==> plan.monthsToPayoff == maxMonths)
  {
    SimulateShape(Start(debts), extra, s, maxMonths);
  }

  /** Balances stay non-negative and every debt keeps its terms, month after month. */
  ghost predicate Sound(debts: seq<Debt>, p: Progress)
  {
    && |p.work| == |debts|
    && NonNegative(p.work)
    && (forall i :: 0 <= i < |debts| ==> SameTerms(p.work[i], debts[i]))
    && (forall k :: 0 <= k < |p.snapshots| ==> SnapshotSound(debts, p.snapshots[k]))
  }

  ghost predicate SnapshotSound(debts: seq<Debt>, m: MonthSnapshot)
  {
    && |m.debts| == |debts|
    && m.interestPaid >= 0.0
    && m.totalBalance >= 0.0
    && (forall i :: 0 <= i < |debts| ==> m.debts[i].name == debts[i].name && m.debts[i].balance >= 0.0)
  }

  lemma {:induction false} SimulateSound(debts: seq<Debt>, p: Progress, extra: real, s: Strategy, maxMonths: int)
    requires Sound(debts, p)
    ensures Sound(debts, Simulate(p, extra, s, maxMonths))
    decreases maxMonths - p.month
  {
    if AnyOpen(p.work) && p.month < maxMonths {
      var n := NextMonth(p, extra, s);
      MonthEndSpec(p.work, extra, s);
      var end := MonthEnd(p.work, extra, s);
      SumOfNonNegative(end, BalanceOf);
      SnapshotDebts(p.month + 1, p.work, end, MinimumApplied(p.work), extra);
      assert SnapshotSound(debts, n.snapshots[|n.snapshots| - 1]);
      SimulateSound(debts, n, extra, s, maxMonths);
    }
  }

  /**
   * Starting from non-negative balances, no month reports a negative balance or a negative interest
   * figure, each month lists every debt under its own name, and the final working copy keeps the
   * original terms (so `original_debt` is the sum of the original balances).
   */
  lemma PlanSound(debts: seq<Debt>, extra: real, s: Strategy, maxMonths: int)
    requires NonNegative(debts)
    ensures var plan := PlanOf(debts, extra, s, maxMonths);
      && (forall k :: 0 <= k < |plan.paymentPlan| ==> SnapshotSound(debts, plan.paymentPlan[k]))
      && NonNegative(FinalDebts(debts, extra, s, maxMonths))
      && plan.originalDebt == TotalOriginal(debts)
  {
    SimulateSound(debts, Start(debts), extra, s, maxMonths);
    var w := FinalDebts(debts, extra, s, maxMonths);
    SameOriginals(w, debts);
  }

  lemma {:induction false} SameOriginals(a: seq<Debt>, b: seq<Debt>)
    requires |a| == |b|
    requires forall i :: 0 <= i < |a| ==> SameTerms(a[i], b[i])
    ensures TotalOriginal(a) == TotalOriginal(b)
  {
    if a != [] {
      SameOriginals(a[..|a| - 1], b[..|b| - 1]);
    }
  }

  /** The running totals are the sums of the monthly figures, none of which is a negative interest figure. */
  ghost predicate Totalled(p: Progress)
  {
    && p.totalInterest == SumOf(p.snapshots, InterestOf)
    && p.totalPaid == SumOf(p.snapshots, PaymentOf)
    && (forall k :: 0 <= k < |p.snapshots| ==> p.snapshots[k].interestPaid >= 0.0)
  }

  lemma {:induction false} SimulateTotals(p: Progress, extra: real, s: Strategy, maxMonths: int)
    requires Totalled(p)
    ensures Totalled(Simulate(p, extra, s, maxMonths))
    decreases maxMonths - p.month
  {
    if AnyOpen(p.work) && p.month < maxMonths {
      var n := NextMonth(p, extra, s);
      var snap := n.snapshots[|n.snapshots| - 1];
      assert n.snapshots == p.snapshots + [snap];
      SumOfAppend(p.snapshots, snap, InterestOf);
      SumOfAppend(p.snapshots, snap, PaymentOf);
      SimulateTotals(n, extra, s, maxMonths);
    }
  }

  /** `total_interest_paid` and `total_paid` accumulate the months' figures; the interest total is never negative. */
  lemma PlanTotals(debts: seq<Debt>, extra: real, s: Strategy, maxMonths: int)
    ensures var plan := PlanOf(debts, extra, s, maxMonths);
      && plan.totalInterestPaid == SumOf(plan.paymentPlan, InterestOf)
      && plan.totalPaid == SumOf(plan.paymentPlan, PaymentOf)
      && plan.totalInterestPaid >= 0.0
  {
    SimulateTotals(Start(debts), extra, s, maxMonths);
    var q := Simulate(Start(debts), extra, s, maxMonths);
    SumOfNonNegative(q.snapshots, InterestOf);
  }

  /** The working copy agrees with the last recorded month (or is the starting list before any month). */
  ghost predicate Follows(debts: seq<Debt>, p: Progress)
  {
    && |p.work| == |debts|
    && (|p.snapshots| == 0 ==> p.work == debts)
    && (|p.snapshots| > 0 ==> Mirrors(p.snapshots[|p.snapshots| - 1], p.work))
  }

  /** A snapshot that records the given balances. */
  ghost predicate Mirrors(m: MonthSnapshot, ds: seq<Debt>)
  {
    && m.totalBalance == TotalBalance(ds)
    && |m.debts| == |ds|
    && (forall i :: 0 <= i < |ds| ==> m.debts[i].balance == ds[i].balance)
  }

  /** From one month to the next: the payment is at most what was owed at the start of the later month,
      and a debt closed in the earlier month keeps its balance and has nothing paid in the later one. */
  ghost predicate Carried(a: MonthSnapshot, b: MonthSnapshot)
  {
    && b.paymentAmount <= a.totalBalance
    && (forall i :: 0 <= i < |a.debts| && i < |b.debts| && a.debts[i].balance <= 0.0 ==>
          b.debts[i].balance == a.debts[i].balance && b.debts[i].paidThisMonth == 0.0)
  }

  ghost predicate Chained(debts: seq<Debt>, p: Progress)
  {
    && Follows(debts, p)
    && (|p.snapshots| > 0 ==> p.snapshots[0].paymentAmount <= TotalBalance(debts))
    && (forall k :: 0 <= k < |p.snapshots| - 1 ==> Carried(p.snapshots[k], p.snapshots[k + 1]))
  }

  /** One loop iteration records a month that mirrors the new working copy and is carried from the previous one. */
  lemma NextMonthChained(debts: seq<Debt>, p: Progress, extra: real, s: Strategy)
    requires Follows(debts, p)
    ensures var n := NextMonth(p, extra, s);
      && Follows(debts, n)
      && n.snapshots[|n.snapshots| - 1].paymentAmount <= TotalBalance(p.work)
      && (|p.snapshots| > 0 ==> Carried(p.snapshots[|p.snapshots| - 1], n.snapshots[|n.snapshots| - 1]))
  {
    var n := NextMonth(p, extra, s);
    MonthEndSpec(p.work, extra, s);
    SnapshotDebts(p.month + 1, p.work, MonthEnd(p.work, extra, s), MinimumApplied(p.work), extra);
    var last := n.snapshots[|n.snapshots| - 1];
    if |p.snapshots| > 0 {
      var prev := p.snapshots[|p.snapshots| - 1];
      forall i | 0 <= i < |prev.debts| && i < |last.debts| && prev.debts[i].balance <= 0.0
        ensures last.debts[i].balance == prev.debts[i].balance && last.debts[i].paidThisMonth == 0.0
      {
        assert !Open(p.work[i]);
      }
    }
  }

  lemma {:induction false} SimulateChained(debts: seq<Debt>, p: Progress, extra: real, s: Strategy, maxMonths: int)
    requires Chained(debts, p)
    ensures Chained(debts, Simulate(p, extra, s, maxMonths))
    decreases maxMonths - p.month
  {
    if AnyOpen(p.work) && p.month < maxMonths {
      var n := NextMonth(p, extra, s);
      NextMonthChained(debts, p, extra, s);
      assert n.snapshots == p.snapshots + [n.snapshots[|n.snapshots| - 1]];
      SimulateChained(debts, n, extra, s, maxMonths);
    }
  }

  /**
   * Month by month: the first month's payment is at most the starting total debt, each later month's
   * payment is at most the previous month's closing total, and a debt closed at the end of a month stays
   * closed, with the same balance and nothing paid, in the following month.
   */
  lemma PlanChained(debts: seq<Debt>, extra: real, s: Strategy, maxMonths: int)
    ensures var plan := PlanOf(debts, extra, s, maxMonths).paymentPlan;
      && (|plan| > 0 ==> plan[0].paymentAmount <= TotalBalance(debts))
      && (forall k :: 0 <= k < |plan| - 1 ==> Carried(plan[k], plan[k + 1]))
  {
    SimulateChained(debts, Start(debts), extra, s, maxMonths);
  }

  /** The first recorded month is the first loop iteration on the registered debts. */
  lemma PlanFirstMonth(debts: seq<Debt>, extra: real, s: Strategy, maxMonths: int)
    requires AnyOpen(debts) && maxMonths > 0
    ensures var plan := PlanOf(debts, extra, s, maxMonths).paymentPlan;
      && |plan| > 0
      && plan[0] == SnapshotOf(1, debts, MonthEnd(debts, extra, s), MinimumApplied(debts), extra)
  {
    var snap := SnapshotOf(1, debts, MonthEnd(debts, extra, s), MinimumApplied(debts), extra);
    var n := NextMonth(Start(debts), extra, s);
    assert n.snapshots == [snap];
    SimulateUnfold(Start(debts), extra, s, maxMonths);
    SimulateShape(n, extra, s, maxMonths);
    var q := Simulate(n, extra, s, maxMonths);
    assert q == Simulate(Start(debts), extra, s, maxMonths);
    assert |q.snapshots| == q.month >= n.month == 1;
    var head := q.snapshots[..1];
    assert head == [snap];
    assert q.snapshots[0] == head[0];
  }

  // ---------------------------------------------------------------------------
  // Comparing the two strategies
  // ---------------------------------------------------------------------------

  datatype Comparison = Comparison(snowballMonths: int, avalancheMonths: int, snowballInterest: real,
                                   avalancheInterest: real, differenceMonths: int, differenceInterest: real,
                                   optimalStrategy: string)

  /** The comparison of a snowball plan with an avalanche plan over the same debts. */
  function Compare(snowball: PaymentPlan, avalanche: PaymentPlan): (r: Comparison)
    ensures r.snowballMonths == snowball.monthsToPayoff && r.avalancheMonths == avalanche.monthsToPayoff
    ensures r.snowballInterest == snowball.totalInterestPaid && r.avalancheInterest == avalanche.totalInterestPaid
    ensures r.differenceMonths + avalanche.monthsToPayoff == snowball.monthsToPayoff
    ensures r.differenceInterest + avalanche.totalInterestPaid == snowball.totalInterestPaid
    ensures r.optimalStrategy == "avalanche" || r.optimalStrategy == "snowball"
    ensures r.optimalStrategy == "avalanche" <==> r.differenceInterest >= 0.0
  {
    Comparison(snowball.monthsToPayoff, avalanche.monthsToPayoff,
               snowball.totalInterestPaid, avalanche.totalInterestPaid,
               snowball.monthsToPayoff - avalanche.monthsToPayoff,
               snowball.totalInterestPaid - avalanche.totalInterestPaid,
               if avalanche.totalInterestPaid <= snowball.totalInterestPaid then "avalanche" else "snowball")
  }

  // ---------------------------------------------------------------------------
  // Single-debt amortization schedule
  // ---------------------------------------------------------------------------

  datatype AmortizationEntry = AmortizationEntry(month: int, payment: real, principal: real, interest: real,
                                                 remainingBalance: real, totalInterestPaid: real)

  /** The hard cap of the amortization loop (30 years). */
  const MaxAmortizationMonths: int := 360

  function EntryInterest(e: AmortizationEntry): real { e.interest }

  /** The amortization loop: `debt` is the working copy, `month` the counter, `totalInterest` the running total. */
  function Amortize(debt: Debt, extra: real, month: int, totalInterest: real,
                    schedule: seq<AmortizationEntry>): seq<AmortizationEntry>
    decreases MaxAmortizationMonths - month
  {
    if debt.balance > 0.0 && month < MaxAmortizationMonths then
      var interest := MonthlyInterest(debt);
      var accrued := debt.(balance := debt.balance + interest);
      var payment := Min(accrued.minimumPayment + extra, accrued.balance);
      var paid := accrued.(balance := accrued.balance - payment);
      Amortize(paid, extra, month + 1, totalInterest + interest,
               schedule + [AmortizationEntry(month + 1, payment, payment - interest, interest, paid.balance,
                                             totalInterest + interest)])
    else schedule
  }

  /** The schedule amortization_schedule returns for a valid index. */
  function AmortizationOf(debt: Debt, extra: real): seq<AmortizationEntry>
  {
    Amortize(debt, extra, 0, 0.0, [])
  }

  /** The balance month k+1 starts from: the debt's balance, then the previous month's remaining balance. */
  function OpeningBalance(debt: Debt, es: seq<AmortizationEntry>, k: nat): real
    requires k <= |es|
  {
    if k == 0 then debt.balance else es[k - 1].remainingBalance
  }

  /** Entry k is month k+1 of the debt's amortization: interest on the opening balance, a payment of
      minimum plus extra capped at the interest-inflated balance, and the running interest total. */
  ghost predicate EntryFollows(debt: Debt, extra: real, es: seq<AmortizationEntry>, k: nat)
    requires k < |es|
  {
    var opening := OpeningBalance(debt, es, k);
    var e := es[k];
    && e.month == k + 1
    && e.interest == opening * (debt.interestRate / 12.0)
    && e.payment == Min(debt.minimumPayment + extra, opening + e.interest)
    && e.principal == e.payment - e.interest
    && e.remainingBalance == opening + e.interest - e.payment
    && e.remainingBalance >= 0.0
    && e.totalInterestPaid == SumOf(es[..k + 1], EntryInterest)
  }

  ghost predicate AmortizationInvariant(debt0: Debt, extra: real, debt: Debt, month: int, totalInterest: real,
                                        es: seq<AmortizationEntry>)
  {
    && SameTerms(debt, debt0)
    && 0 <= month == |es| <= MaxAmortizationMonths
    && debt.balance == OpeningBalance(debt0, es, |es|)
    && totalInterest == SumOf(es, EntryInterest)
    && (forall k :: 0 <= k < |es| ==> EntryFollows(debt0, extra, es, k))
    && (forall k :: 0 <= k < |es| - 1 ==> es[k].remainingBalance > 0.0)
  }

  ghost predicate AmortizationDone(debt0: Debt, extra: real, es: seq<AmortizationEntry>)
  {
    && |es| <= MaxAmortizationMonths
    && (forall k :: 0 <= k < |es| ==> EntryFollows(debt0, extra, es, k))
    && (forall k :: 0 <= k < |es| - 1 ==> es[k].remainingBalance > 0.0)
    && (|es| == MaxAmortizationMonths || OpeningBalance(debt0, es, |es|) <= 0.0)
  }

  /** One month of amortization keeps the invariant. */
  lemma AmortizeStep(debt0: Debt, extra: real, debt: Debt, month: int, totalInterest: real,
                     es: seq<AmortizationEntry>, e: AmortizationEntry, paid: Debt)
    requires AmortizationInvariant(debt0, extra, debt, month, totalInterest, es)
    requires debt.balance > 0.0 && month < MaxAmortizationMonths
    requires e.month == month + 1 && e.interest == MonthlyInterest(debt)
    requires e.payment == Min(debt.minimumPayment + extra, debt.balance + e.interest)
    requires e.principal == e.payment - e.interest && e.totalInterestPaid == totalInterest + e.interest
    requires paid == debt.(balance := debt.balance + e.interest - e.payment) && e.remainingBalance == paid.balance
    ensures AmortizationInvariant(debt0, extra, paid, month + 1, totalInterest + e.interest, es + [e])
  {
    var es' := es + [e];
    SumOfAppend(es, e, EntryInterest);
    assert es'[..|es| + 1] == es';
    assert EntryFollows(debt0, extra, es', |es|);
    EntriesExtend(debt0, extra, es, e);
  }

  /** Appending an entry leaves the earlier entries' facts intact. */
  lemma EntriesExtend(debt0: Debt, extra: real, es: seq<AmortizationEntry>, e: AmortizationEntry)
    requires forall k :: 0 <= k < |es| ==> EntryFollows(debt0, extra, es, k)
    ensures forall k :: 0 <= k < |es| ==> EntryFollows(debt0, extra, es + [e], k)
  {
    forall k | 0 <= k < |es|
      ensures EntryFollows(debt0, extra, es + [e], k)
    {
      assert (es + [e])[..k + 1] == es[..k + 1];
      assert EntryFollows(debt0, extra, es, k);
    }
  }

  lemma {:induction false} AmortizeFacts(debt0: Debt, extra: real, debt: Debt, month: int, totalInterest: real,
                                         es: seq<AmortizationEntry>)
    requires AmortizationInvariant(debt0, extra, debt, month, totalInterest, es)
    ensures AmortizationDone(debt0, extra, Amortize(debt, extra, month, totalInterest, es))
    decreases MaxAmortizationMonths - month
  {
    if debt.balance > 0.0 && month < MaxAmortizationMonths {
      var interest := MonthlyInterest(debt);
      var accrued := debt.(balance := debt.balance + interest);
      var payment := Min(accrued.minimumPayment + extra, accrued.balance);
      var paid := accrued.(balance := accrued.balance - payment);
      var e := AmortizationEntry(month + 1, payment, payment - interest, interest, paid.balance, totalInterest + interest);
      AmortizeStep(debt0, extra, debt, month, totalInterest, es, e, paid);
      AmortizeFacts(debt0, extra, paid, month + 1, totalInterest + interest, es + [e]);
    }
  }

  /**
   * The schedule has at most 360 entries numbered 1..n; each entry follows from the previous one
   * (EntryFollows), so remaining balances are never negative, principal is payment minus interest and
   * the interest total is a running sum; every month but the last leaves a positive balance; and the
   * schedule stops at the cap or once the balance is gone, in which case the last remaining balance is 0.
   */
  lemma AmortizationSpec(debt: Debt, extra: real)
    ensures var es := AmortizationOf(debt, extra);
      && AmortizationDone(debt, extra, es)
      && (0 < |es| < MaxAmortizationMonths ==> es[|es| - 1].remainingBalance == 0.0)
  {
    AmortizeFacts(debt, extra, debt, 0, 0.0, []);
    var es := AmortizationOf(debt, extra);
    if 0 < |es| < MaxAmortizationMonths {
      assert EntryFollows(debt, extra, es, |es| - 1);
    }
  }

  // ---------------------------------------------------------------------------
  // Worked examples
  // ---------------------------------------------------------------------------

  /** Three debts: a credit card, a car loan and a personal loan. */
  function Fixture(): seq<Debt>
  {
    [NewDebt("Credit Card", 5000.0, 18.0, 150.0),
     NewDebt("Car Loan", 15000.0, 6.0, 300.0),
     NewDebt("Personal Loan", 3000.0, 10.0, 100.0)]
  }

  lemma FixtureTotals()
    ensures TotalBalance(Fixture()) == 23000.0
    ensures TotalMinimum(Fixture()) == 550.0
  {
    var ds := Fixture();
    var two, one := ds[..2], ds[..1];
    assert two[..1] == one && one[..0] == [];
    assert one[0] == ds[0] && two[1] == ds[1];
    assert SumOf(one[..0], BalanceOf) == 0.0 && SumOf(one[..0], MinimumOf) == 0.0;
    assert TotalBalance(one) == 5000.0 && TotalMinimum(one) == 150.0;
    assert TotalBalance(two) == 20000.0 && TotalMinimum(two) == 450.0;
  }

  /** The fixture after the first month's interest and minimum payments. */
  lemma FixtureAfterMinimums()
    ensures var mid := MinimumStep(Fixture());
      && |mid| == 3
      && mid[0].balance == 4925.0 && mid[0].interestRate == 0.18
      && mid[1].balance == 14775.0 && mid[1].interestRate == 0.06
      && mid[2].balance == 2925.0 && mid[2].interestRate == 0.10
  {
    var ds := Fixture();
    MinimumStepSpec(ds);
    assert Open(ds[0]) && Open(ds[1]) && Open(ds[2]);
    assert Accrued(ds[0]) == 5075.0 && Accrued(ds[1]) == 15075.0 && Accrued(ds[2]) == 3025.0;
  }

  /** Avalanche picks the credit card (18%), snowball the personal loan (smallest balance). */
  lemma FixtureTargets()
    ensures Target(MinimumStep(Fixture()), Avalanche) == Some(0)
    ensures Target(MinimumStep(Fixture()), Snowball) == Some(2)
  {
    var mid := MinimumStep(Fixture());
    FixtureAfterMinimums();
    TargetSpec(mid, Avalanche);
    assert IsTarget(mid, Avalanche, 0);
    TargetSpec(mid, Snowball);
    assert IsTarget(mid, Snowball, 2);
  }

  /** With 200 extra per month, the first month's extra goes to the credit card under avalanche. */
  lemma FixtureFirstMonthAvalanche()
    ensures var plan := PlanOf(Fixture(), 200.0, Avalanche, 60).paymentPlan;
      |plan| > 0 && |plan[0].debts| == 3 && plan[0].debts[0].balance == 4725.0 && plan[0].debts[2].balance == 2925.0
  {
    var ds := Fixture();
    var mid := MinimumStep(ds);
    assert Open(ds[0]) && Open(mid[0]);
    FixtureAfterMinimums();
    FixtureTargets();
    ExtraStepSpec(mid, 200.0, Avalanche);
    PlanFirstMonth(ds, 200.0, Avalanche, 60);
  }

  /** With 200 extra per month, the first month's extra goes to the personal loan under snowball. */
  lemma FixtureFirstMonthSnowball()
    ensures var plan := PlanOf(Fixture(), 200.0, Snowball, 60).paymentPlan;
      |plan| > 0 && |plan[0].debts| == 3 && plan[0].debts[0].balance == 4925.0 && plan[0].debts[2].balance == 2725.0
  {
    var ds := Fixture();
    var mid := MinimumStep(ds);
    assert Open(ds[0]) && Open(mid[0]);
    FixtureAfterMinimums();
    FixtureTargets();
    ExtraStepSpec(mid, 200.0, Snowball);
    PlanFirstMonth(ds, 200.0, Snowball, 60);
  }

  /** On the fixture, 175 of interest accrues in month 1, yet the avalanche plan reports none: the
      200 extra payment is netted against it. */
  lemma FixtureFirstMonthInterest()
    ensures InterestAccrued(Fixture()) == 175.0
    ensures var plan := PlanOf(Fixture(), 200.0, Avalanche, 60).paymentPlan;
      |plan| > 0 && plan[0].interestPaid == 0.0
  {
    var ds := Fixture();
    var two, one := ds[..2], ds[..1];
    assert two[..1] == one && one[..0] == [];
    assert one[0] == ds[0] && two[1] == ds[1];
    assert Open(ds[0]) && Open(ds[1]) && Open(ds[2]);
    assert Accrued(ds[0]) == 5075.0 && Accrued(ds[1]) == 15075.0 && Accrued(ds[2]) == 3025.0;
    assert SumOf(one[..0], OpenInterest) == 0.0 && SumOf(one[..0], Shortfall) == 0.0;
    assert OpenInterest(ds[0]) == 75.0 && OpenInterest(ds[1]) == 75.0 && OpenInterest(ds[2]) == 25.0;
    assert Shortfall(ds[0]) == 0.0 && Shortfall(ds[1]) == 0.0 && Shortfall(ds[2]) == 0.0;
    assert InterestAccrued(one) == 75.0 && SumOf(one, Shortfall) == 0.0;
    assert InterestAccrued(two) == 150.0 && SumOf(two, Shortfall) == 0.0;
    var mid := MinimumStep(ds);
    FixtureAfterMinimums();
    FixtureTargets();
    ExtraStepSpec(mid, 200.0, Avalanche);
    assert ExtraApplied(mid, 200.0, Avalanche) == 200.0;
    ReportedInterest(ds, 200.0, Avalanche);
    PlanFirstMonth(ds, 200.0, Avalanche, 60);
  }

  /** When only one month is left, the loop runs exactly one more iteration. */
  lemma SimulateLastMonth(p: Progress, extra: real, s: Strategy, maxMonths: int)
    requires AnyOpen(p.work) && p.month + 1 == maxMonths
    ensures Simulate(p, extra, s, maxMonths) == NextMonth(p, extra, s)
  {
  }

  /**
   * A debt paid off in exactly the last allowed month is reported as not paid off successfully:
   * with a one-month limit, an interest-free debt whose minimum equals its balance is cleared in
   * month 1, yet the flag is false.
   */
  lemma PayoffInLastAllowedMonth(d: Debt, extra: real, s: Strategy)
    requires Open(d) && d.interestRate == 0.0 && d.minimumPayment == d.balance
    ensures PlanOf([d], extra, s, 1).monthsToPayoff == 1
    ensures !AnyOpen(FinalDebts([d], extra, s, 1))
    ensures !PlanOf([d], extra, s, 1).paidOffSuccessfully
  {
    var ds := [d];
    assert Open(ds[0]);
    SimulateLastMonth(Start(ds), extra, s, 1);
    var mid := MinimumStep(ds);
    MinimumStepSpec(ds);
    assert mid[0].balance == 0.0;
    ExtraStepSpec(mid, extra, s);
    assert !AnyOpen(mid);
  }

  /** The car loan alone, with 100 extra per month, pays 400 in its first month. */
  lemma CarLoanFirstPayment()
    ensures var es := AmortizationOf(NewDebt("Car Loan", 15000.0, 6.0, 300.0), 100.0);
      |es| > 0 && es[0].payment == 400.0
  {
    var d := NewDebt("Car Loan", 15000.0, 6.0, 300.0);
    AmortizationSpec(d, 100.0);
    var es := AmortizationOf(d, 100.0);
    assert EntryFollows(d, 100.0, es, 0);
  }
}
