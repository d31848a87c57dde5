/** What the PAYE engine guarantees of every calculation: the relief and
    taxable-income figures, the shape of the per-band breakdown, conservation
    of taxable income and tax across the bands, the monthly views and
    monotonicity in salary, first for any band table of the right shape and
    then for the statutory table, with worked scenarios. */
module TaxProperties {
  import opened Types
  import opened Constants
  import opened TaxCalculator

  // ---------------------------------------------------------------------------
  // Any band table
  // ---------------------------------------------------------------------------

  /** The annual figures: gross and deductions are the monthly figures over
      twelve months, the relief never falls below ₦200,000 for non-negative
      gross (and equals it only at zero gross), and taxable income is gross less
      relief and deductions, floored at zero. */
  lemma AnnualFigures(inputs: TaxInputs, table: seq<TaxBand>)
    ensures var r := Calculate(inputs, table);
      r.annualGross == (inputs.monthlyGrossIncome + inputs.otherIncome) * 12.0 &&
      r.allowableDeductions
        == (inputs.pensionContribution + inputs.nhfContribution + inputs.otherDeductions) * 12.0 &&
      (r.cra == 200000.0 + 0.20 * r.annualGross || r.cra == 0.21 * r.annualGross) &&
      r.cra >= 200000.0 + 0.20 * r.annualGross && r.cra >= 0.21 * r.annualGross &&
      (r.annualGross >= 0.0 ==> r.cra >= 200000.0) &&
      (r.annualGross >= 0.0 ==> (r.cra == 200000.0 <==> r.annualGross == 0.0)) &&
      r.taxableIncome >= 0.0 &&
      r.taxableIncome >= r.annualGross - r.cra - r.allowableDeductions &&
      (r.taxableIncome == 0.0 || r.taxableIncome == r.annualGross - r.cra - r.allowableDeductions)
  {
  }

  /** Entry `e` carries band `band`'s label and rate, owes the levy on its
      amount at that rate (the amount times the rate, `LevyAtRate`), and is
      allocated between zero and both the taxable income and the
      band's width. */
  predicate EntryFits(e: TaxBandResult, band: TaxBand, taxable: real)
  {
    e.labelText == band.labelText && e.rate == Rate(band) &&
    e.taxPayable == Levy(e.taxableAmount, band.ratePercent) &&
    0.0 <= e.taxableAmount <= taxable &&
    (band.limit.Finite? ==> e.taxableAmount <= band.limit.width)
  }

  /** One entry per band, in table order, each fitting its band. */
  predicate EntriesFit(entries: seq<TaxBandResult>, table: seq<TaxBand>, taxable: real)
  {
    |entries| == |table| &&
    forall k :: 0 <= k < |table| ==> EntryFits(entries[k], table[k], taxable)
  }

  /** The walk over non-negative taxable income emits one fitting entry per band. */
  lemma AllocateFits(table: seq<TaxBand>, taxable: real)
    requires WidthsNonNegative(table) && taxable >= 0.0
    ensures EntriesFit(Allocate(table, taxable), table, taxable)
  {
    forall k | 0 <= k < |table|
      ensures EntryFits(Allocate(table, taxable)[k], table[k], taxable)
    {
      EntryFitsAt(table, taxable, k);
    }
  }

  /** Entry `k` of the walk over non-negative taxable income fits band `k`. */
  lemma EntryFitsAt(table: seq<TaxBand>, taxable: real, k: nat)
    requires WidthsNonNegative(table) && taxable >= 0.0 && k < |table|
    ensures EntryFits(Allocate(table, taxable)[k], table[k], taxable)
  {
    AllocateEntryBounds(table, taxable, k);
    RemainingNotAbove(table, taxable, k);
  }

  /** The breakdown has one entry per band of the table, in table order; each
      copies its band's label and rate, owes its amount at that rate, and is
      allocated between zero and both the taxable income and its band's width. */
  lemma BreakdownShape(inputs: TaxInputs, table: seq<TaxBand>)
    requires WidthsNonNegative(table)
    ensures var r := Calculate(inputs, table);
      EntriesFit(r.bands, table, r.taxableIncome)
  {
    var r := Calculate(inputs, table);
    AllocateFits(table, r.taxableIncome);
  }

  /** The monthly tax is a twelfth of the annual tax, and net monthly income is
      salary alone less that tax: other income is taxed but not reported as net. */
  lemma MonthlyViews(inputs: TaxInputs, table: seq<TaxBand>)
    ensures var r := Calculate(inputs, table);
      r.monthlyTax * 12.0 == r.annualTax &&
      r.netMonthlyIncome == inputs.monthlyGrossIncome - r.monthlyTax &&
      r.netMonthlyIncome + r.monthlyTax + inputs.otherIncome == r.annualGross / 12.0
  {
  }

  /** With an unbounded last band, the entries' taxable amounts add up to the
      whole taxable income and their tax to the annual tax. */
  lemma Conservation(inputs: TaxInputs, table: seq<TaxBand>)
    requires TopUnbounded(table)
    ensures var r := Calculate(inputs, table);
      TotalTaxable(r.bands) == r.taxableIncome &&
      TotalTax(r.bands) == r.annualTax
  {
    var r := Calculate(inputs, table);
    AllocateConserves(table, r.taxableIncome);
  }

  /** Once the entries before band `k` have taken all the taxable income, that
      entry and every later one are zero. */
  lemma ZeroOnceExhausted(inputs: TaxInputs, table: seq<TaxBand>, k: nat)
    requires k <= |table|
    requires TotalTaxable(Calculate(inputs, table).bands[..k]) >= Calculate(inputs, table).taxableIncome
    ensures |Calculate(inputs, table).bands| == |table|
    ensures ZeroEntries(Calculate(inputs, table).bands[k..])
  {
    var r := Calculate(inputs, table);
    AllocateExhausted(table, r.taxableIncome, k);
  }

  /** Every entry of `s` is allocated nothing and owes nothing. */
  predicate ZeroEntries(s: seq<TaxBandResult>)
  {
    forall j :: 0 <= j < |s| ==> s[j].taxableAmount == 0.0 && s[j].taxPayable == 0.0
  }

  /** Entries that owe nothing add up to nothing. */
  lemma {:induction false} TotalTaxOfZeros(s: seq<TaxBandResult>)
    requires forall j :: 0 <= j < |s| ==> s[j].taxPayable == 0.0
    ensures TotalTax(s) == 0.0
  {
    if s != [] {
      TotalTaxOfZeros(s[1..]);
    }
  }

  /** With no taxable income every entry is zero and no tax is due. */
  lemma NoTaxableIncomeNoTax(inputs: TaxInputs, table: seq<TaxBand>)
    requires Calculate(inputs, table).taxableIncome == 0.0
    ensures var r := Calculate(inputs, table);
      r.annualTax == 0.0 && r.monthlyTax == 0.0 &&
      r.netMonthlyIncome == inputs.monthlyGrossIncome && ZeroEntries(r.bands)
  {
    var r := Calculate(inputs, table);
    AllocateExhausted(table, r.taxableIncome, 0);
    TotalTaxOfZeros(r.bands);
  }

  /** Zero income gives the relief floor, no taxable income and no tax. */
  lemma ZeroIncomeZeroTax(inputs: TaxInputs, table: seq<TaxBand>)
    requires inputs.monthlyGrossIncome == 0.0 && inputs.otherIncome == 0.0
    requires inputs.pensionContribution == 0.0 && inputs.nhfContribution == 0.0
    requires inputs.otherDeductions == 0.0
    ensures var r := Calculate(inputs, table);
      r.annualGross == 0.0 && r.cra == 200000.0 && r.taxableIncome == 0.0 &&
      r.annualTax == 0.0 && r.monthlyTax == 0.0 && r.netMonthlyIncome == 0.0 &&
      ZeroEntries(r.bands)
  {
    NoTaxableIncomeNoTax(inputs, table);
  }

  /** More annual gross, all else equal, never gives less taxable income. */
  lemma TaxableIncomeMonotone(lo: real, hi: real, deductions: real)
    requires lo <= hi
    ensures TaxableIncome(lo, ConsolidatedRelief(lo), deductions)
         <= TaxableIncome(hi, ConsolidatedRelief(hi), deductions)
  {
    var craLo := ConsolidatedRelief(lo);
    var craHi := ConsolidatedRelief(hi);
    assert hi - craHi >= lo - craLo by {
      if craHi == 200000.0 + 0.20 * hi {
        assert craLo >= 200000.0 + 0.20 * lo;
      } else {
        assert craLo >= 0.21 * lo;
      }
    }
  }

  /** With non-negative widths, raising the monthly salary while every
      other input stays the same never lowers the annual tax. */
  lemma SalaryMonotone(inputs: TaxInputs, raisedSalary: real, table: seq<TaxBand>)
    requires WidthsNonNegative(table)
    requires inputs.monthlyGrossIncome <= raisedSalary
    ensures Calculate(inputs, table).annualTax
         <= Calculate(inputs.(monthlyGrossIncome := raisedSalary), table).annualTax
  {
    var raised := inputs.(monthlyGrossIncome := raisedSalary);
    assert AnnualGross(inputs) <= AnnualGross(raised);
    assert AllowableDeductions(inputs) == AllowableDeductions(raised);
    TaxableIncomeMonotone(AnnualGross(inputs), AnnualGross(raised), AllowableDeductions(inputs));
    AllocateTaxMonotone(table, Calculate(inputs, table).taxableIncome,
                        Calculate(raised, table).taxableIncome);
  }

  /** With non-negative widths no tax is ever negative: the clamp leaves no
      refund, so the monthly tax is at least zero and net pay is at most
      the salary. */
  lemma TaxNonNegative(inputs: TaxInputs, table: seq<TaxBand>)
    requires WidthsNonNegative(table)
    ensures var r := Calculate(inputs, table);
      r.annualTax >= 0.0 && r.monthlyTax >= 0.0 &&
      r.netMonthlyIncome <= inputs.monthlyGrossIncome
  {
    AllocateTaxMonotone(table, 0.0, Calculate(inputs, table).taxableIncome);
    assert Allocate(table, 0.0)[..0] == [];
    AllocateExhausted(table, 0.0, 0);
    TotalTaxOfZeros(Allocate(table, 0.0));
  }

  /** Every band but the last is finite and its entry was allocated its full width. */
  predicate FillsFiniteBands(entries: seq<TaxBandResult>, table: seq<TaxBand>)
  {
    |entries| == |table| &&
    forall k :: 0 <= k < |table| - 1 ==>
      table[k].limit.Finite? && entries[k].taxableAmount == table[k].limit.width
  }

  /** The walk over `remaining` that covers every finite width fills each finite
      band exactly and puts the whole excess in the unbounded last band. */
  lemma AllocateFillsFiniteBands(table: seq<TaxBand>, remaining: real)
    requires TopUnbounded(table) && WidthsNonNegative(table)
    requires remaining >= FiniteWidthSum(table)
    ensures FillsFiniteBands(Allocate(table, remaining), table)
    ensures Allocate(table, remaining)[|table| - 1].taxableAmount == remaining - FiniteWidthSum(table)
    ensures TotalTax(Allocate(table, remaining))
         == FullFiniteBandsTax(table)
            + Levy(remaining - FiniteWidthSum(table), table[|table| - 1].ratePercent)
  {
    LayeredOf(table);
    AllocateExcess(table, remaining);
    TaxAboveFiniteBands(table, remaining);
    forall k | 0 <= k < |table| - 1
      ensures Allocate(table, remaining)[k].taxableAmount == table[k].limit.width
    {
      AllocateFullBand(table, remaining, k);
    }
  }

  /** Taxable income that covers every finite width fills each finite band
      exactly; the whole excess lands in the unbounded last band and is taxed
      at its rate alone. */
  lemma ExcessInTopBand(inputs: TaxInputs, table: seq<TaxBand>)
    requires TopUnbounded(table) && WidthsNonNegative(table)
    requires Calculate(inputs, table).taxableIncome >= FiniteWidthSum(table)
    ensures var r := Calculate(inputs, table);
      FillsFiniteBands(r.bands, table) &&
      r.bands[|table| - 1].taxableAmount == r.taxableIncome - FiniteWidthSum(table) &&
      r.annualTax == FullFiniteBandsTax(table)
                     + Levy(r.taxableIncome - FiniteWidthSum(table), table[|table| - 1].ratePercent)
  {
    AllocateFillsFiniteBands(table, Calculate(inputs, table).taxableIncome);
  }

  // ---------------------------------------------------------------------------
  // The statutory table
  // ---------------------------------------------------------------------------

  /** Over the statutory table: six entries with the table's labels and rates,
      each within its band's width, adding up to the taxable income and the
      annual tax. */
  lemma StatutoryBreakdown(inputs: TaxInputs)
    ensures var r := Calculate(inputs, TaxBands);
      |r.bands| == 6 && EntriesFit(r.bands, TaxBands, r.taxableIncome) &&
      TotalTaxable(r.bands) == r.taxableIncome && TotalTax(r.bands) == r.annualTax
  {
    TaxBandsWellFormed();
    BreakdownShape(inputs, TaxBands);
    Conservation(inputs, TaxBands);
  }

  /** Over the statutory table, raising the monthly salary never lowers the annual tax. */
  lemma StatutorySalaryMonotone(inputs: TaxInputs, raisedSalary: real)
    requires inputs.monthlyGrossIncome <= raisedSalary
    ensures Calculate(inputs, TaxBands).annualTax
         <= Calculate(inputs.(monthlyGrossIncome := raisedSalary), TaxBands).annualTax
  {
    TaxBandsWellFormed();
    SalaryMonotone(inputs, raisedSalary, TaxBands);
  }

  /** Over the statutory table, taxable income beyond ₦49,999,999 fills the five
      finite bands (₦10,429,999.85 of tax) and the rest is taxed at 25% alone. */
  lemma StatutoryTopBand(inputs: TaxInputs)
    requires Calculate(inputs, TaxBands).taxableIncome >= 49999999.0
    ensures var r := Calculate(inputs, TaxBands);
      FillsFiniteBands(r.bands, TaxBands) &&
      r.bands[5].taxableAmount == r.taxableIncome - 49999999.0 &&
      r.annualTax == 10429999.85 + (r.taxableIncome - 49999999.0) * 0.25
  {
    TaxBandsWellFormed();
    FiniteWidthTotal();
    ExcessInTopBand(inputs, TaxBands);
    LevyIsProduct(Calculate(inputs, TaxBands).taxableIncome - 49999999.0, 25);
  }

  /** The calculator's default inputs: ₦250,000 monthly salary and ₦20,000
      monthly pension, whatever the employment type and year. The relief is
      ₦200,000 + ₦600,000 = ₦800,000, so ₦1,960,000 is taxable: ₦800,000 at 0%
      and ₦1,160,000 at 15%. */
  lemma DefaultScenario(inputs: TaxInputs)
    requires inputs.monthlyGrossIncome == 250000.0 && inputs.otherIncome == 0.0
    requires inputs.pensionContribution == 20000.0
    requires inputs.nhfContribution == 0.0 && inputs.otherDeductions == 0.0
    ensures var r := Calculate(inputs, TaxBands);
      r.annualGross == 3000000.0 && r.cra == 800000.0 &&
      r.allowableDeductions == 240000.0 && r.taxableIncome == 1960000.0 &&
      ScenarioBreakdown(r.bands) &&
      r.annualTax == 174000.0 && r.monthlyTax == 14500.0 &&
      r.netMonthlyIncome == 235500.0
  {
    assert |TaxBands| == 6;
    assert TaxBands[0].limit == Finite(800000.0) && TaxBands[0].ratePercent == 0;
    assert TaxBands[1].limit == Finite(2199999.0) && TaxBands[1].ratePercent == 15;
    ScenarioOverTable(inputs, TaxBands);
  }

  /** The default scenario over any six-band table that opens with a tax-free
      ₦800,000 band and a 15% ₦2,199,999 band. */
  lemma ScenarioOverTable(inputs: TaxInputs, table: seq<TaxBand>)
    requires inputs.monthlyGrossIncome == 250000.0 && inputs.otherIncome == 0.0
    requires inputs.pensionContribution == 20000.0
    requires inputs.nhfContribution == 0.0 && inputs.otherDeductions == 0.0
    requires |table| == 6
    requires table[0].limit == Finite(800000.0) && table[0].ratePercent == 0
    requires table[1].limit == Finite(2199999.0) && table[1].ratePercent == 15
    ensures var r := Calculate(inputs, table);
      r.annualGross == 3000000.0 && r.cra == 800000.0 &&
      r.allowableDeductions == 240000.0 && r.taxableIncome == 1960000.0 &&
      ScenarioBreakdown(r.bands) &&
      r.annualTax == 174000.0 && r.monthlyTax == 14500.0 &&
      r.netMonthlyIncome == 235500.0
  {
    var r := Calculate(inputs, table);
    assert r.taxableIncome == 1960000.0;
    ScenarioWalk(table, r.taxableIncome);
    MonthlyViews(inputs, table);
  }

  /** Six entries: ₦800,000 untaxed in the first, ₦1,160,000 owing ₦174,000
      in the second, and nothing in the other four. */
  predicate ScenarioBreakdown(bands: seq<TaxBandResult>)
  {
    |bands| == 6 &&
    bands[0].taxableAmount == 800000.0 && bands[0].taxPayable == 0.0 &&
    bands[1].taxableAmount == 1160000.0 && bands[1].taxPayable == 174000.0 &&
    ZeroEntries(bands[2..])
  }

  /** The band walk of the default scenario over any six-band table that opens
      with a tax-free ₦800,000 band and a 15% ₦2,199,999 band: ₦1,960,000 fills
      the first, leaves ₦1,160,000 for the second, and nothing after. */
  lemma ScenarioWalk(table: seq<TaxBand>, taxable: real)
    requires |table| == 6 && taxable == 1960000.0
    requires table[0].limit == Finite(800000.0) && table[0].ratePercent == 0
    requires table[1].limit == Finite(2199999.0) && table[1].ratePercent == 15
    ensures ScenarioBreakdown(Allocate(table, taxable))
    ensures TotalTax(Allocate(table, taxable)) == 174000.0
  {
    var bands := Allocate(table, taxable);
    AllocateAt(table, taxable, 0);
    assert RemainingBefore(table, taxable, 0) == taxable;
    RemainingStep(table, taxable, 0);
    AllocateAt(table, taxable, 1);
    RemainingStep(table, taxable, 1);
    LevyIsProduct(1160000.0, 15);
    AllocateExhausted(table, taxable, 2);
    assert bands == bands[..2] + bands[2..];
    TotalTaxAppend(bands[..2], bands[2..]);
    TotalTaxOfZeros(bands[2..]);
    assert bands[..2] == [bands[0]] + [bands[1]];
    TotalTaxAppend([bands[0]], [bands[1]]);
  }
}
