/**
 * The progressive income-tax estimator: a bracket table, a tax-free allowance and
 * a list of deductions. Tax is computed by walking the brackets in order, skipping
 * those the taxable income does not reach and stopping at the first bracket whose
 * upper bound covers it.
 */
module TaxEstimation {
  import opened Outcomes
  import opened Money

  // ---------------------------------------------------------------------------
  // Brackets
  // ---------------------------------------------------------------------------

  /** A bracket's upper bound; the top bracket of a table is unbounded. */
  datatype Bound = Finite(value: real) | Unbounded

  datatype Bracket = Bracket(min: real, max: Bound, rate: real)

  /** A bracket as a caller supplies it: any of its three entries may be missing. */
  datatype BracketInput = BracketInput(min: Option<real>, max: Option<Bound>, rate: Option<real>)

  datatype Deduction = Deduction(name: string, amount: real)

  /** Income up to the bound (every income is covered by an unbounded bracket). */
  predicate Covers(b: Bound, income: real)
  {
    b.Unbounded? || income <= b.value
  }

  /** The income capped at the bound. */
  function CapAt(b: Bound, income: real): real
  {
    if Covers(b, income) then income else b.value
  }

  /** The tax due on the part of the income that falls in a bracket the income reaches. */
  function BracketTax(b: Bracket, taxable: real): real
  {
    (CapAt(b.max, taxable) - b.min) * b.rate
  }

  /** The bracket loop: skip brackets the income does not exceed, tax the slice of the others,
      and stop after the first bracket that covers the income. */
  function TaxFrom(brackets: seq<Bracket>, taxable: real): real
  {
    if brackets == [] then 0.0
    else
      var b := brackets[0];
      if taxable <= b.min then TaxFrom(brackets[1..], taxable)
      else BracketTax(b, taxable) + (if Covers(b.max, taxable) then 0.0 else TaxFrom(brackets[1..], taxable))
  }

  /** The marginal-rate reference: every bracket taxes the slice of income it holds, without stopping early. */
  function MarginalTax(brackets: seq<Bracket>, taxable: real): real
  {
    if brackets == [] then 0.0
    else
      var b := brackets[0];
      (if taxable <= b.min then 0.0 else BracketTax(b, taxable)) + MarginalTax(brackets[1..], taxable)
  }

  /** A well-formed table: each bracket's bound is at least its minimum and each bracket starts
      where the previous one ends. */
  predicate Contiguous(brackets: seq<Bracket>)
  {
    && (forall i :: 0 <= i < |brackets| && brackets[i].max.Finite? ==> brackets[i].min <= brackets[i].max.value)
    && (forall i :: 0 <= i < |brackets| - 1 ==> brackets[i].max == Finite(brackets[i + 1].min))
  }

  predicate RatesWithin(brackets: seq<Bracket>)
  {
    forall i :: 0 <= i < |brackets| ==> 0.0 <= brackets[i].rate <= 1.0
  }

  /** The table for Indonesia: 5%, 15%, 25% and 30%. */
  function IndonesiaBrackets(): seq<Bracket>
  {
    [Bracket(0.0, Finite(60000000.0), 0.05),
     Bracket(60000000.0, Finite(250000000.0), 0.15),
     Bracket(250000000.0, Finite(500000000.0), 0.25),
     Bracket(500000000.0, Unbounded, 0.30)]
  }

  /** The table used for any other country: 10%, 20% and 30%. */
  function DefaultBrackets(): seq<Bracket>
  {
    [Bracket(0.0, Finite(10000.0), 0.10),
     Bracket(10000.0, Finite(50000.0), 0.20),
     Bracket(50000.0, Unbounded, 0.30)]
  }

  /** The tax-free allowance for a single person in Indonesia. */
  const IndonesiaNonTaxableIncome: real := 54000000.0

  // ---------------------------------------------------------------------------
  // Properties of the bracket loop
  // ---------------------------------------------------------------------------

  /** An income that exceeds no bracket's minimum (zero income, with non-negative minimums) owes nothing. */
  lemma {:induction false} TaxBelowAllBrackets(brackets: seq<Bracket>, taxable: real)
    requires forall i :: 0 <= i < |brackets| ==> taxable <= brackets[i].min
    ensures TaxFrom(brackets, taxable) == 0.0
  {
    if brackets != [] {
      TaxBelowAllBrackets(brackets[1..], taxable);
    }
  }

  /** Once some bracket that the income exceeds also covers it, brackets after it contribute nothing. */
  lemma {:induction false} TaxStopsAtCover(brackets: seq<Bracket>, later: seq<Bracket>, taxable: real)
    requires exists i :: 0 <= i < |brackets| && taxable > brackets[i].min && Covers(brackets[i].max, taxable)
    ensures TaxFrom(brackets + later, taxable) == TaxFrom(brackets, taxable)
  {
    var b := brackets[0];
    assert (brackets + later)[1..] == brackets[1..] + later;
    if !(taxable > b.min && Covers(b.max, taxable)) {
      var i :| 0 <= i < |brackets| && taxable > brackets[i].min && Covers(brackets[i].max, taxable);
      assert brackets[1..][i - 1] == brackets[i];
      TaxStopsAtCover(brackets[1..], later, taxable);
    }
  }

  lemma {:induction false} MarginalTaxBelow(brackets: seq<Bracket>, taxable: real)
    requires Contiguous(brackets)
    requires brackets != [] ==> taxable <= brackets[0].min
    ensures MarginalTax(brackets, taxable) == 0.0
  {
    if brackets != [] {
      var b := brackets[0];
      if |brackets| > 1 {
        assert b.max == Finite(brackets[1].min);
        assert brackets[1..][0] == brackets[1];
      }
      MarginalTaxBelow(brackets[1..], taxable);
    }
  }

  /** On a contiguous table the early stop changes nothing: the loop computes the marginal-rate tax. */
  lemma {:induction false} TaxIsMarginal(brackets: seq<Bracket>, taxable: real)
    requires Contiguous(brackets)
    ensures TaxFrom(brackets, taxable) == MarginalTax(brackets, taxable)
  {
    if brackets != [] {
      var b := brackets[0];
      var rest := brackets[1..];
      assert Contiguous(rest);
      if taxable > b.min && Covers(b.max, taxable) && rest != [] {
        assert b.max == Finite(rest[0].min);
        MarginalTaxBelow(rest, taxable);
      } else if rest == [] {
      } else {
        TaxIsMarginal(rest, taxable);
      }
    }
  }

  /** A reached bracket taxes between nothing and the whole slice of income it holds. */
  lemma BracketTaxBounds(b: Bracket, taxable: real)
    requires taxable > b.min && 0.0 <= b.rate <= 1.0
    requires b.max.Finite? ==> b.min <= b.max.value
    ensures 0.0 <= BracketTax(b, taxable) <= CapAt(b.max, taxable) - b.min
  {
    var slice := CapAt(b.max, taxable) - b.min;
    assert slice >= 0.0;
    assert BracketTax(b, taxable) == slice * b.rate;
    ProductNonNegative(slice, b.rate);
    ProductNonNegative(slice, 1.0 - b.rate);
    assert slice - slice * b.rate == slice * (1.0 - b.rate);
  }

  /** On a contiguous table with rates in [0, 1], the tax lies between 0 and the income above the first minimum. */
  lemma {:induction false} MarginalTaxBounds(brackets: seq<Bracket>, taxable: real)
    requires brackets != [] && Contiguous(brackets) && RatesWithin(brackets)
    ensures 0.0 <= MarginalTax(brackets, taxable) <= Max(0.0, taxable - brackets[0].min)
    decreases |brackets|
  {
    var b := brackets[0];
    var rest := brackets[1..];
    assert Contiguous(rest) && RatesWithin(rest);
    if taxable <= b.min {
      MarginalTaxBelow(brackets, taxable);
    } else {
      BracketTaxBounds(b, taxable);
      var own := BracketTax(b, taxable);
      assert MarginalTax(brackets, taxable) == own + MarginalTax(rest, taxable);
      if rest == [] {
        assert MarginalTax(rest, taxable) == 0.0;
      } else if Covers(b.max, taxable) {
        assert b.max == Finite(rest[0].min);
        MarginalTaxBelow(rest, taxable);
      } else {
        assert b.max == Finite(rest[0].min);
        MarginalTaxBounds(rest, taxable);
      }
    }
  }

  /** The tax on a contiguous table with rates in [0, 1] and a non-negative first minimum never
      exceeds the taxable income. */
  lemma TaxBounds(brackets: seq<Bracket>, taxable: real)
    requires brackets != [] && Contiguous(brackets) && RatesWithin(brackets) && brackets[0].min >= 0.0
    requires taxable >= 0.0
    ensures 0.0 <= TaxFrom(brackets, taxable) <= taxable
  {
    TaxIsMarginal(brackets, taxable);
    MarginalTaxBounds(brackets, taxable);
  }

  lemma BuiltInTablesWellFormed()
    ensures Contiguous(IndonesiaBrackets()) && RatesWithin(IndonesiaBrackets())
    ensures Contiguous(DefaultBrackets()) && RatesWithin(DefaultBrackets())
  {
  }

  /** 66M taxable on the Indonesian table: 60M at 5% plus 6M at 15%. */
  lemma IndonesiaExample()
    ensures TaxFrom(IndonesiaBrackets(), 66000000.0) == 3900000.0
  {
    var bs := IndonesiaBrackets();
    assert bs[1..][0] == bs[1];
    assert TaxFrom(bs[1..], 66000000.0) == 900000.0;
  }

  // ---------------------------------------------------------------------------
  // Taxable income
  // ---------------------------------------------------------------------------

  function AmountOf(d: Deduction): real { d.amount }

  /** Gross income less the allowance and the deductions, floored at zero. */
  function Taxable(grossIncome: real, nonTaxableIncome: real, totalDeductions: real): (r: real)
    ensures r >= 0.0 && r >= grossIncome - nonTaxableIncome - totalDeductions
    ensures r == 0.0 || r == grossIncome - nonTaxableIncome - totalDeductions
  {
    Max(0.0, grossIncome - nonTaxableIncome - totalDeductions)
  }

  /** ASCII lower-casing, enough to recognise a country name. */
  function LowerChar(c: char): char
  {
    if 'A' <= c <= 'Z' then (c as int + 32) as char else c
  }

  function Lower(s: string): (r: string)
    ensures |r| == |s|
    ensures forall i :: 0 <= i < |s| && !('A' <= s[i] <= 'Z') ==> r[i] == s[i]
  {
    seq(|s|, i requires 0 <= i < |s| => LowerChar(s[i]))
  }

  lemma LowerIndonesia()
    ensures Lower("Indonesia") == "indonesia" && Lower("INDONESIA") == "indonesia"
  {
    assert Lower("Indonesia")[0] == 'i';
    assert Lower("INDONESIA")[0] == 'i' && Lower("INDONESIA")[1] == 'n' && Lower("INDONESIA")[2] == 'd';
    assert Lower("INDONESIA")[3] == 'o' && Lower("INDONESIA")[4] == 'n' && Lower("INDONESIA")[5] == 'e';
    assert Lower("INDONESIA")[6] == 's' && Lower("INDONESIA")[7] == 'i' && Lower("INDONESIA")[8] == 'a';
  }

  predicate Complete(b: BracketInput)
  {
    b.min.Some? && b.max.Some? && b.rate.Some?
  }

  function ToBracket(b: BracketInput): Bracket
    requires Complete(b)
  {
    Bracket(b.min.value, b.max.value, b.rate.value)
  }

  datatype TaxSummary = TaxSummary(grossIncome: real, nonTaxableIncome: real, deductions: seq<Deduction>,
                                   totalDeductions: real, taxableIncome: real, taxAmount: real,
                                   effectiveTaxRate: real, afterTaxIncome: real)

  // ---------------------------------------------------------------------------
  // The estimator object
  // ---------------------------------------------------------------------------

  class TaxEstimator {
    var country: string
    var deductions: seq<Deduction>
    var taxBrackets: seq<Bracket>
    var nonTaxableIncome: real

    /** What the setters guarantee: a non-negative allowance and positive deductions. */
    ghost predicate Valid()
      reads this
    {
      && nonTaxableIncome >= 0.0
      && forall i :: 0 <= i < |deductions| ==> deductions[i].amount > 0.0
    }

    /** The Indonesian table and allowance for "Indonesia" in any letter case, otherwise the default table. */
    constructor(country: string)
      ensures Valid() && this.country == country && deductions == []
      ensures Lower(country) == "indonesia" ==>
                taxBrackets == IndonesiaBrackets() && nonTaxableIncome == IndonesiaNonTaxableIncome
      ensures Lower(country) != "indonesia" ==> taxBrackets == DefaultBrackets() && nonTaxableIncome == 0.0
    {
      this.country := country;
      deductions := [];
      if Lower(country) == "indonesia" {
        taxBrackets := IndonesiaBrackets();
        nonTaxableIncome := IndonesiaNonTaxableIncome;
      } else {
        taxBrackets := DefaultBrackets();
        nonTaxableIncome := 0.0;
      }
    }

    /** Replaces the table, unless some bracket lacks its minimum, bound or rate. */
    method SetTaxBrackets(brackets: seq<BracketInput>) returns (r: Outcome)
      requires Valid()
      modifies this
      ensures Valid()
      ensures r.Pass? <==> forall i :: 0 <= i < |brackets| ==> Complete(brackets[i])
      ensures r.Fail? ==> r.message == "All tax brackets must contain 'min', 'max', and 'rate' keys"
      ensures r.Fail? ==> taxBrackets == old(taxBrackets)
      ensures r.Pass? ==> |taxBrackets| == |brackets|
      ensures r.Pass? ==> forall i :: 0 <= i < |brackets| ==>
                Complete(brackets[i]) && taxBrackets[i] == ToBracket(brackets[i])
      ensures deductions == old(deductions) && nonTaxableIncome == old(nonTaxableIncome) && country == old(country)
    {
      if !(forall i :: 0 <= i < |brackets| ==> Complete(brackets[i])) {
        return Fail("All tax brackets must contain 'min', 'max', and 'rate' keys");
      }
      taxBrackets := seq(|brackets|, i requires 0 <= i < |brackets| && Complete(brackets[i]) => ToBracket(brackets[i]));
      r := Pass;
    }

    method SetNonTaxableIncome(amount: real) returns (r: Outcome)
      requires Valid()
      modifies this
      ensures Valid()
      ensures r.Pass? <==> amount >= 0.0
      ensures r.Fail? ==> r.message == "Non-taxable income must be non-negative"
      ensures nonTaxableIncome == if amount < 0.0 then old(nonTaxableIncome) else amount
      ensures deductions == old(deductions) && taxBrackets == old(taxBrackets) && country == old(country)
    {
      if amount < 0.0 {
        return Fail("Non-taxable income must be non-negative");
      }
      nonTaxableIncome := amount;
      r := Pass;
    }

    method AddDeduction(name: string, amount: real) returns (r: Outcome)
      requires Valid()
      modifies this
      ensures Valid()
      ensures r.Pass? <==> amount > 0.0
      ensures r.Fail? ==> r.message == "Deduction amount must be greater than zero"
      ensures deductions == if amount <= 0.0 then old(deductions) else old(deductions) + [Deduction(name, amount)]
      ensures nonTaxableIncome == old(nonTaxableIncome) && taxBrackets == old(taxBrackets) && country == old(country)
    {
      if amount <= 0.0 {
        return Fail("Deduction amount must be greater than zero");
      }
      deductions := deductions + [Deduction(name, amount)];
      r := Pass;
    }

    /** The sum of the deductions: never negative, and positive exactly when some deduction is recorded. */
    function TotalDeductions(): (r: real)
      requires Valid()
      reads this
      ensures r >= 0.0
      ensures r > 0.0 <==> deductions != []
    {
      if deductions != [] then SumOfPositive(deductions, AmountOf); SumOf(deductions, AmountOf)
      else SumOf(deductions, AmountOf)
    }

    /** Taxable income for a non-negative gross; it never exceeds the gross income. */
    function TaxableIncome(grossIncome: real): (r: Result<real>)
      requires Valid()
      reads this
      ensures r.Ok? <==> grossIncome >= 0.0
      ensures grossIncome < 0.0 <==> r == Err("Gross income must be non-negative")
      ensures r.Ok? ==> r.value == Taxable(grossIncome, nonTaxableIncome, TotalDeductions())
      ensures r.Ok? ==> 0.0 <= r.value <= grossIncome
    {
      if grossIncome < 0.0 then Err("Gross income must be non-negative")
      else Ok(Taxable(grossIncome, nonTaxableIncome, TotalDeductions()))
    }

    /** The bracket loop over the stored table, applied to the taxable income. */
    method CalculateTax(grossIncome: real) returns (r: Result<real>)
      requires Valid()
      ensures r.Ok? <==> grossIncome >= 0.0
      ensures grossIncome < 0.0 <==> r == Err("Gross income must be non-negative")
      ensures r.Ok? ==> r.value == TaxFrom(taxBrackets, TaxableIncome(grossIncome).value)
    {
      if grossIncome < 0.0 {
        return Err("Gross income must be non-negative");
      }
      var taxable := TaxableIncome(grossIncome).value;
      var totalTax := 0.0;
      for i := 0 to |taxBrackets|
        invariant totalTax + TaxFrom(taxBrackets[i..], taxable) == TaxFrom(taxBrackets, taxable)
      {
        var bracket := taxBrackets[i];
        assert taxBrackets[i..][0] == bracket && taxBrackets[i..][1..] == taxBrackets[i + 1..];
        if taxable <= bracket.min {
          continue;
        }
        var bracketIncome := (if Covers(bracket.max, taxable) then taxable else bracket.max.value) - bracket.min;
        var bracketTax := bracketIncome * bracket.rate;
        totalTax := totalTax + bracketTax;
        if Covers(bracket.max, taxable) {
          break;
        }
      }
      r := Ok(totalTax);
    }

    /** The tax the stored table gives for a non-negative gross income. */
    function TaxOf(grossIncome: real): real
      requires Valid() && grossIncome >= 0.0
      reads this
    {
      TaxFrom(taxBrackets, TaxableIncome(grossIncome).value)
    }

    /** Tax as a fraction of a positive gross income. */
    function CalculateEffectiveTaxRate(grossIncome: real): (r: Result<real>)
      requires Valid()
      reads this
      ensures r.Ok? <==> grossIncome > 0.0
      ensures grossIncome <= 0.0 <==> r == Err("Gross income must be greater than zero")
      ensures r.Ok? ==> r.value * grossIncome == TaxOf(grossIncome)
    {
      if grossIncome <= 0.0 then Err("Gross income must be greater than zero")
      else Ok(TaxOf(grossIncome) / grossIncome)
    }

    /** The summary: income left after tax, and the effective rate in percent (zero for a zero income). */
    function Summary(grossIncome: real): (r: Result<TaxSummary>)
      requires Valid()
      reads this
      ensures r.Ok? <==> grossIncome >= 0.0
      ensures grossIncome < 0.0 <==> r == Err("Gross income must be non-negative")
      ensures r.Ok? ==> var s := r.value;
        && s.grossIncome == grossIncome && s.nonTaxableIncome == nonTaxableIncome
        && s.deductions == deductions && s.totalDeductions == TotalDeductions()
        && s.taxableIncome == TaxableIncome(grossIncome).value
        && s.taxAmount == TaxOf(grossIncome)
        && s.afterTaxIncome + s.taxAmount == grossIncome
        && (grossIncome > 0.0 ==> s.effectiveTaxRate * grossIncome == s.taxAmount * 100.0)
        && (grossIncome == 0.0 ==> s.effectiveTaxRate == 0.0)
    {
      if grossIncome < 0.0 then Err("Gross income must be non-negative")
      else
        var tax := TaxOf(grossIncome);
        var taxable := TaxableIncome(grossIncome).value;
        Ok(TaxSummary(grossIncome, nonTaxableIncome, deductions, TotalDeductions(), taxable, tax,
                      (if grossIncome > 0.0 then tax / grossIncome else 0.0) * 100.0, grossIncome - tax))
    }
  }

  /** 120M gross against the 54M allowance and a 5M deduction leaves 61M taxable; without the deduction,
      66M, taxed 3.9M on the Indonesian table. */
  lemma TaxableExamples()
    ensures Taxable(120000000.0, IndonesiaNonTaxableIncome, 5000000.0) == 61000000.0
    ensures TaxFrom(IndonesiaBrackets(), Taxable(120000000.0, IndonesiaNonTaxableIncome, 0.0)) == 3900000.0
  {
    IndonesiaExample();
  }
}
