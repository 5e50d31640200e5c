/** Assets and liabilities, and the net worth they add up to. */
module NetWorth {
  import opened Outcomes
  import opened Money

  /** A named asset or liability and its value. */
  datatype Holding = Holding(name: string, value: real)

  function ValueOf(h: Holding): real { h.value }

  predicate AllNonNegative(s: seq<Holding>)
  {
    forall i :: 0 <= i < |s| ==> s[i].value >= 0.0
  }

  class NetWorthCalculator {
    var assets: seq<Holding>
    var liabilities: seq<Holding>

    predicate Valid()
      reads this
    {
      AllNonNegative(assets) && AllNonNegative(liabilities)
    }

    constructor()
      ensures Valid() && assets == [] && liabilities == []
      ensures CalculateNetWorth() == 0.0
    {
      assets := [];
      liabilities := [];
    }

    /** Records a non-negative asset, raising net worth by exactly its value. */
    method AddAsset(name: string, value: real) returns (r: Outcome)
      requires Valid()
      modifies this
      ensures Valid() && liabilities == old(liabilities)
      ensures r.Pass? <==> value >= 0.0
      ensures r.Fail? ==> r.message == "Asset value must be non-negative." && assets == old(assets)
      ensures r.Pass? ==> assets == old(assets) + [Holding(name, value)]
      ensures r.Pass? ==> CalculateNetWorth() == old(CalculateNetWorth()) + value
    {
      if value < 0.0 {
        return Fail("Asset value must be non-negative.");
      }
      SumOfAppend(assets, Holding(name, value), ValueOf);
      assets := assets + [Holding(name, value)];
      r := Pass;
    }

    /** Records a non-negative liability, lowering net worth by exactly its value. */
    method AddLiability(name: string, value: real) returns (r: Outcome)
      requires Valid()
      modifies this
      ensures Valid() && assets == old(assets)
      ensures r.Pass? <==> value >= 0.0
      ensures r.Fail? ==> r.message == "Liability value must be non-negative." && liabilities == old(liabilities)
      ensures r.Pass? ==> liabilities == old(liabilities) + [Holding(name, value)]
      ensures r.Pass? ==> CalculateNetWorth() == old(CalculateNetWorth()) - value
    {
      if value < 0.0 {
        return Fail("Liability value must be non-negative.");
      }
      SumOfAppend(liabilities, Holding(name, value), ValueOf);
      liabilities := liabilities + [Holding(name, value)];
      r := Pass;
    }

    /** The value of all assets: non-negative, and at least the value of any one asset. */
    function TotalAssets(): (r: real)
      reads this
      ensures AllNonNegative(assets) ==> r >= 0.0
      ensures AllNonNegative(assets) ==> forall i :: 0 <= i < |assets| ==> assets[i].value <= r
    {
      if AllNonNegative(assets) then
        SumOfNonNegative(assets, ValueOf);
        forall i | 0 <= i < |assets| ensures assets[i].value <= SumOf(assets, ValueOf) {
          SumOfDominates(assets, ValueOf, i);
        }
        SumOf(assets, ValueOf)
      else SumOf(assets, ValueOf)
    }

    /** The value of all liabilities: non-negative, and at least the value of any one liability. */
    function TotalLiabilities(): (r: real)
      reads this
      ensures AllNonNegative(liabilities) ==> r >= 0.0
      ensures AllNonNegative(liabilities) ==> forall i :: 0 <= i < |liabilities| ==> liabilities[i].value <= r
    {
      if AllNonNegative(liabilities) then
        SumOfNonNegative(liabilities, ValueOf);
        forall i | 0 <= i < |liabilities| ensures liabilities[i].value <= SumOf(liabilities, ValueOf) {
          SumOfDominates(liabilities, ValueOf, i);
        }
        SumOf(liabilities, ValueOf)
      else SumOf(liabilities, ValueOf)
    }

    /** Assets minus liabilities: never above the assets, never below minus the liabilities. */
    function CalculateNetWorth(): (r: real)
      reads this
      ensures Valid() ==> -TotalLiabilities() <= r <= TotalAssets()
    {
      TotalAssets() - TotalLiabilities()
    }
  }

  /** 530000 in assets against 215000 in liabilities leaves a net worth of 315000. */
  method NetWorthExample() returns (assets: real, liabilities: real, netWorth: real)
    ensures assets == 530000.0 && liabilities == 215000.0 && netWorth == 315000.0
  {
    var calculator := new NetWorthCalculator();
    var _ := calculator.AddAsset("House", 500000.0);
    var _ := calculator.AddAsset("Car", 30000.0);
    var _ := calculator.AddLiability("Mortgage", 200000.0);
    var _ := calculator.AddLiability("Car Loan", 15000.0);
    assets := calculator.TotalAssets();
    liabilities := calculator.TotalLiabilities();
    netWorth := calculator.CalculateNetWorth();
  }
}
