/** A portfolio of investments, each with the amount put in and its current value. */
module Investments {
  import opened Outcomes
  import opened Money

  datatype Investment = Investment(name: string, amount: real, currentValue: real)

  datatype PortfolioSummary = PortfolioSummary(totalInvested: real, totalCurrentValue: real, investments: seq<Investment>)

  function AmountOf(i: Investment): real { i.amount }

  function CurrentValueOf(i: Investment): real { i.currentValue }

  class InvestmentPortfolio {
    var investments: seq<Investment>

    /** Every holding was bought for a positive amount and has a positive current value. */
    predicate Valid()
      reads this
    {
      forall i :: 0 <= i < |investments| ==> investments[i].amount > 0.0 && investments[i].currentValue > 0.0
    }

    constructor()
      ensures Valid() && investments == []
    {
      investments := [];
    }

    /** Records an investment whose amount and current value are both positive. */
    method AddInvestment(name: string, amount: real, currentValue: real) returns (r: Outcome)
      requires Valid()
      modifies this
      ensures Valid()
      ensures r.Pass? <==> amount > 0.0 && currentValue > 0.0
      ensures r.Fail? ==> r.message == "Amount must be greater than zero and current value must be non - negative."
      ensures r.Fail? ==> investments == old(investments)
      ensures r.Pass? ==> investments == old(investments) + [Investment(name, amount, currentValue)]
      ensures r.Pass? ==> TotalInvested() == old(TotalInvested()) + amount
      ensures r.Pass? ==> TotalCurrentValue() == old(TotalCurrentValue()) + currentValue
    {
      if amount <= 0.0 || currentValue <= 0.0 {
        return Fail("Amount must be greater than zero and current value must be non - negative.");
      }
      var added := Investment(name, amount, currentValue);
      SumOfAppend(investments, added, AmountOf);
      SumOfAppend(investments, added, CurrentValueOf);
      investments := investments + [added];
      r := Pass;
    }

    /** The total amount put in: positive exactly when the portfolio holds something. */
    function TotalInvested(): (r: real)
      reads this
      ensures Valid() ==> (r >= 0.0 && (r > 0.0 <==> investments != []))
    {
      if Valid() && investments != [] then SumOfPositive(investments, AmountOf); SumOf(investments, AmountOf)
      else SumOf(investments, AmountOf)
    }

    /** The total current value: positive exactly when the portfolio holds something. */
    function TotalCurrentValue(): (r: real)
      reads this
      ensures Valid() ==> (r >= 0.0 && (r > 0.0 <==> investments != []))
    {
      if Valid() && investments != [] then SumOfPositive(investments, CurrentValueOf); SumOf(investments, CurrentValueOf)
      else SumOf(investments, CurrentValueOf)
    }

    function Summary(): (r: PortfolioSummary)
      reads this
      ensures r.totalInvested == TotalInvested() && r.totalCurrentValue == TotalCurrentValue()
      ensures r.investments == investments
    {
      PortfolioSummary(TotalInvested(), TotalCurrentValue(), investments)
    }
  }

  /** Two holdings bought for 1000 and 2000, now worth 1200 and 2500, total 3000 and 3700. */
  method PortfolioExample() returns (s: PortfolioSummary)
    ensures s.totalInvested == 3000.0 && s.totalCurrentValue == 3700.0 && |s.investments| == 2
  {
    var portfolio := new InvestmentPortfolio();
    var _ := portfolio.AddInvestment("Stock A", 1000.0, 1200.0);
    var _ := portfolio.AddInvestment("Stock B", 2000.0, 2500.0);
    s := portfolio.Summary();
  }
}
