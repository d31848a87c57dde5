/** The PAYE engine: annualise the monthly figures, take the Consolidated
    Relief Allowance and the allowable deductions off the gross, clamp at
    zero, then walk the band table once, allocating what is left band by
    band. `Calculate` is the engine as a function of its inputs and a band
    table; `CalculateTax` is the same engine as the loop the program runs
    over the statutory table. */
module TaxCalculator {
  import opened Types
  import opened Constants

  function Max(a: real, b: real): (m: real)
    ensures m >= a && m >= b && (m == a || m == b)
  {
    if a >= b then a else b
  }

  function Min(a: real, b: real): (m: real)
    ensures m <= a && m <= b && (m == a || m == b)
  {
    if a <= b then a else b
  }

  /** The smaller of an amount and a band limit; an unbounded limit never caps. */
  function CapAt(amount: real, limit: Limit): (r: real)
    ensures r <= amount
    ensures limit.Finite? ==> r <= limit.width && (r == amount || r == limit.width)
    ensures limit.Unbounded? ==> r == amount
  {
    match limit
    case Finite(w) => Min(amount, w)
    case Unbounded => amount
  }

  // ---------------------------------------------------------------------------
  // Relief, deductions and taxable income
  // ---------------------------------------------------------------------------

  /** Salary plus other income, both monthly, over twelve months. */
  function AnnualGross(inputs: TaxInputs): (g: real)
    ensures g / 12.0 == inputs.monthlyGrossIncome + inputs.otherIncome
    ensures inputs.monthlyGrossIncome >= 0.0 && inputs.otherIncome >= 0.0 ==> g >= 0.0
  {
    (inputs.monthlyGrossIncome + inputs.otherIncome) * 12.0
  }

  /** Consolidated Relief Allowance: the higher of ₦200,000 and 1% of gross, plus 20% of gross. */
  function ConsolidatedRelief(annualGross: real): (cra: real)
    ensures cra >= 200000.0 + 0.20 * annualGross && cra >= 0.21 * annualGross
    ensures cra == 200000.0 + 0.20 * annualGross || cra == 0.21 * annualGross
    ensures annualGross >= 0.0 ==> cra >= 200000.0
    ensures annualGross >= 0.0 ==> (cra == 200000.0 <==> annualGross == 0.0)
  {
    Max(200000.0, 0.01 * annualGross) + 0.20 * annualGross
  }

  /** Pension, NHF and other deductions, all monthly, over twelve months. */
  function AllowableDeductions(inputs: TaxInputs): (d: real)
    ensures d / 12.0 == inputs.pensionContribution + inputs.nhfContribution + inputs.otherDeductions
    ensures (inputs.pensionContribution >= 0.0 && inputs.nhfContribution >= 0.0 &&
             inputs.otherDeductions >= 0.0) ==> d >= 0.0
  {
    (inputs.pensionContribution + inputs.nhfContribution + inputs.otherDeductions) * 12.0
  }

  /** Gross less relief and deductions, never below zero. */
  function TaxableIncome(annualGross: real, cra: real, deductions: real): (t: real)
    ensures t >= 0.0 && t >= annualGross - cra - deductions
    ensures t == 0.0 || t == annualGross - cra - deductions
  {
    Max(0.0, annualGross - cra - deductions)
  }
  // ---------------------------------------------------------------------------
  // Band allocation
  // ---------------------------------------------------------------------------

  /** How much of `remaining` one band takes: nothing once nothing remains,
      otherwise the lesser of what remains and the band's limit. */
  function BandAmount(band: TaxBand, remaining: real): real
  {
    if remaining <= 0.0 then 0.0 else CapAt(remaining, band.limit)
  }

  /** A band takes nothing once nothing remains; otherwise it takes no more than
      what remains and no more than a finite width, and it takes either all that
      remains or its full width. */
  lemma BandAmountBounds(band: TaxBand, remaining: real)
    ensures var a := BandAmount(band, remaining);
      (remaining <= 0.0 ==> a == 0.0) &&
      (remaining > 0.0 ==> a <= remaining) &&
      (remaining > 0.0 && band.limit.Finite? ==> a <= band.limit.width) &&
      (remaining > 0.0 ==> a == remaining || (band.limit.Finite? && a == band.limit.width))
  {
  }

  /** The entry emitted for a band that was allocated `amount`. */
  function Charge(band: TaxBand, amount: real): TaxBandResult
  {
    TaxBandResult(band.labelText, Rate(band), amount, Levy(amount, band.ratePercent))
  }

  /** An entry copies its band's label and rate, records the amount, and owes
      exactly the amount times the rate; a band allocated nothing owes nothing. */
  lemma ChargeAtRate(band: TaxBand, amount: real)
    ensures var e := Charge(band, amount);
      e.labelText == band.labelText && e.rate == Rate(band) && e.taxableAmount == amount &&
      e.taxPayable == amount * Rate(band) &&
      (amount == 0.0 ==> e.taxPayable == 0.0)
  {
    LevyAtRate(amount, band);
  }

  /** The band walk's output for `remaining` taxable income: one entry per band,
      in table order, each charged for its share of what the earlier bands left. */
  function Allocate(table: seq<TaxBand>, remaining: real): (entries: seq<TaxBandResult>)
    ensures |entries| == |table|
  {
    if table == [] then []
    else
      var amount := BandAmount(table[0], remaining);
      [Charge(table[0], amount)] + Allocate(table[1..], remaining - amount)
  }

  /** The entries' taxable amounts added up. */
  function TotalTaxable(s: seq<TaxBandResult>): real
  {
    if s == [] then 0.0 else s[0].taxableAmount + TotalTaxable(s[1..])
  }

  /** The entries' tax added up: the figure the band loop accumulates. */
  function TotalTax(s: seq<TaxBandResult>): real
  {
    if s == [] then 0.0 else s[0].taxPayable + TotalTax(s[1..])
  }

  lemma {:induction false} TotalTaxableAppend(a: seq<TaxBandResult>, b: seq<TaxBandResult>)
    ensures TotalTaxable(a + b) == TotalTaxable(a) + TotalTaxable(b)
  {
    if a == [] {
      assert a + b == b;
    } else {
      assert (a + b)[1..] == a[1..] + b;
      TotalTaxableAppend(a[1..], b);
    }
  }

  lemma {:induction false} TotalTaxAppend(a: seq<TaxBandResult>, b: seq<TaxBandResult>)
    ensures TotalTax(a + b) == TotalTax(a) + TotalTax(b)
  {
    if a == [] {
      assert a + b == b;
    } else {
      assert (a + b)[1..] == a[1..] + b;
      TotalTaxAppend(a[1..], b);
    }
  }

  /** The walk's first step: the first band's entry, then the walk over the rest
      of the table with what that band left, and the totals split the same way. */
  lemma AllocateCons(table: seq<TaxBand>, remaining: real)
    requires table != []
    ensures var x := BandAmount(table[0], remaining);
      var rest := Allocate(table[1..], remaining - x);
      Allocate(table, remaining)[0] == Charge(table[0], x) &&
      Allocate(table, remaining)[1..] == rest &&
      TotalTaxable(Allocate(table, remaining)) == x + TotalTaxable(rest) &&
      TotalTax(Allocate(table, remaining)) == Levy(x, table[0].ratePercent) + TotalTax(rest)
  {
    var x := BandAmount(table[0], remaining);
    var rest := Allocate(table[1..], remaining - x);
    assert ([Charge(table[0], x)] + rest)[1..] == rest;
  }

  /** Dropping the first band keeps a table's shape. */
  lemma TailShape(table: seq<TaxBand>)
    requires table != []
    ensures |table| > 1 && TopUnbounded(table) ==> TopUnbounded(table[1..])
    ensures WidthsNonNegative(table) ==> WidthsNonNegative(table[1..])
  {
    forall k | 0 <= k < |table| - 1 ensures table[1..][k] == table[k + 1] { }
  }

  /** The tax of the walk is the first band's tax plus the tax of the walk over the rest. */
  lemma TotalTaxCons(table: seq<TaxBand>, remaining: real, x: real)
    requires table != [] && x == BandAmount(table[0], remaining)
    ensures TotalTax(Allocate(table, remaining))
         == Levy(x, table[0].ratePercent) + TotalTax(Allocate(table[1..], remaining - x))
  {
    AllocateCons(table, remaining);
  }

  // ---------------------------------------------------------------------------
  // The walk band by band
  // ---------------------------------------------------------------------------

  /** Taxable income not yet allocated when the walk reaches band `k`. */
  function RemainingBefore(table: seq<TaxBand>, remaining: real, k: nat): real
    requires k <= |table|
  {
    remaining - TotalTaxable(Allocate(table, remaining)[..k])
  }

  /** Entry `k` charges band `k` for its share of whatever the earlier bands
      left over, so the walk can be replayed one band at a time. */
  lemma {:induction false} AllocateAt(table: seq<TaxBand>, remaining: real, k: nat)
    requires k < |table|
    ensures Allocate(table, remaining)[k]
         == Charge(table[k], BandAmount(table[k], RemainingBefore(table, remaining, k)))
  {
    var s := Allocate(table, remaining);
    if k == 0 {
      assert s[..0] == [];
    } else {
      var x := BandAmount(table[0], remaining);
      var rest := Allocate(table[1..], remaining - x);
      assert s == [s[0]] + rest && s[0].taxableAmount == x;
      AllocateAt(table[1..], remaining - x, k - 1);
      assert s[..k] == [s[0]] + rest[..k - 1];
      assert ([s[0]] + rest[..k - 1])[1..] == rest[..k - 1];
      assert TotalTaxable(s[..k]) == x + TotalTaxable(rest[..k - 1]);
    }
  }

  /** Moving past band `k` lowers what remains by exactly that band's amount. */
  lemma RemainingStep(table: seq<TaxBand>, remaining: real, k: nat)
    requires k < |table|
    ensures RemainingBefore(table, remaining, k + 1)
         == RemainingBefore(table, remaining, k) - Allocate(table, remaining)[k].taxableAmount
  {
    var s := Allocate(table, remaining);
    assert s[..k + 1] == s[..k] + [s[k]];
    TotalTaxableAppend(s[..k], [s[k]]);
  }

  /** One step of the band walk: the entry for band `i` charges that band's
      amount at its rate, and the remainder and the total move by that amount
      and that tax. */
  lemma WalkStep(table: seq<TaxBand>, remaining: real, i: nat)
    requires i < |table|
    ensures var entries := Allocate(table, remaining);
      var before := RemainingBefore(table, remaining, i);
      var x := BandAmount(table[i], before);
      entries[..i + 1] == entries[..i] + [Charge(table[i], x)] &&
      RemainingBefore(table, remaining, i + 1) == before - x &&
      TotalTax(entries[..i + 1]) == TotalTax(entries[..i]) + Levy(x, table[i].ratePercent)
  {
    var entries := Allocate(table, remaining);
    AllocateAt(table, remaining, i);
    RemainingStep(table, remaining, i);
    assert entries[..i + 1] == entries[..i] + [entries[i]];
    TotalTaxAppend(entries[..i], [entries[i]]);
  }

  /** Every entry the walk emits carries its band's label and rate, owes its
      amount at that rate, is zero once nothing remains, and is otherwise
      allocated the lesser of what remains and its band's limit; with a
      non-negative width that lies between zero and both. */
  lemma AllocateEntryBounds(table: seq<TaxBand>, remaining: real, k: nat)
    requires k < |table|
    requires table[k].limit.Finite? ==> table[k].limit.width >= 0.0
    ensures var e := Allocate(table, remaining)[k];
      var before := RemainingBefore(table, remaining, k);
      e.labelText == table[k].labelText && e.rate == Rate(table[k]) &&
      e.taxPayable == Levy(e.taxableAmount, table[k].ratePercent) &&
      (before <= 0.0 ==> e.taxableAmount == 0.0 && e.taxPayable == 0.0) &&
      (before > 0.0 ==> e.taxableAmount == CapAt(before, table[k].limit)) &&
      0.0 <= e.taxableAmount <= Max(0.0, before) &&
      (table[k].limit.Finite? ==> e.taxableAmount <= table[k].limit.width)
  {
    AllocateAt(table, remaining, k);
    LevyOfZero(table[k].ratePercent);
  }

  /** With non-negative widths, the walk never takes a negative amount, so what
      remains at band `k` is at most what it started with. */
  lemma {:induction false} RemainingNotAbove(table: seq<TaxBand>, remaining: real, k: nat)
    requires WidthsNonNegative(table) && k <= |table|
    ensures RemainingBefore(table, remaining, k) <= remaining
  {
    if k == 0 {
      assert Allocate(table, remaining)[..0] == [];
    } else {
      RemainingNotAbove(table, remaining, k - 1);
      RemainingStep(table, remaining, k - 1);
      AllocateEntryBounds(table, remaining, k - 1);
    }
  }

  /** Once nothing remains at band `k`, that entry and every later one are zero. */
  lemma {:induction false} AllocateExhausted(table: seq<TaxBand>, remaining: real, k: nat)
    requires k <= |table| && RemainingBefore(table, remaining, k) <= 0.0
    ensures forall j :: k <= j < |table| ==>
      Allocate(table, remaining)[j].taxableAmount == 0.0 &&
      Allocate(table, remaining)[j].taxPayable == 0.0
    decreases |table| - k
  {
    if k < |table| {
      AllocateAt(table, remaining, k);
      LevyOfZero(table[k].ratePercent);
      RemainingStep(table, remaining, k);
      AllocateExhausted(table, remaining, k + 1);
    }
  }

  // ---------------------------------------------------------------------------
  // Conservation, the unbounded top band and monotonicity
  // ---------------------------------------------------------------------------

  /** With an unbounded last band, the entries' taxable amounts add up to all
      the taxable income. */
  lemma {:induction false} AllocateConserves(table: seq<TaxBand>, remaining: real)
    requires TopUnbounded(table) && remaining >= 0.0
    ensures TotalTaxable(Allocate(table, remaining)) == remaining
  {
    AllocateCons(table, remaining);
    if |table| == 1 {
      assert table[1..] == [];
    } else {
      TailShape(table);
      AllocateConserves(table[1..], remaining - BandAmount(table[0], remaining));
    }
  }

  /** The table read band by band: finite bands of non-negative width, ending in
      exactly one unbounded band. */
  predicate Layered(table: seq<TaxBand>)
  {
    |table| > 0 &&
    if |table| == 1 then table[0].limit.Unbounded?
    else table[0].limit.Finite? && table[0].limit.width >= 0.0 && Layered(table[1..])
  }

  /** A table whose only unbounded band is the last and whose widths are
      non-negative is layered. */
  lemma {:induction false} LayeredOf(table: seq<TaxBand>)
    requires TopUnbounded(table) && WidthsNonNegative(table)
    ensures Layered(table)
  {
    if |table| > 1 {
      TailShape(table);
      LayeredOf(table[1..]);
    }
  }

  lemma {:induction false} FiniteWidthSumNonNegative(table: seq<TaxBand>)
    requires Layered(table)
    ensures FiniteWidthSum(table) >= 0.0
  {
    if |table| > 1 {
      FiniteWidthSumNonNegative(table[1..]);
    } else {
      assert table[1..] == [];
    }
  }

  /** A finite first band with the rest of the table's widths behind it: when the
      taxable income covers them all, that band takes exactly its width and what
      it leaves still covers the rest. */
  lemma FiniteHead(table: seq<TaxBand>, remaining: real)
    requires |table| > 1 && Layered(table)
    requires remaining >= FiniteWidthSum(table)
    ensures table[0].limit.Finite? && Layered(table[1..])
    ensures FiniteWidthSum(table) == table[0].limit.width + FiniteWidthSum(table[1..])
    ensures FullFiniteBandsTax(table)
         == Levy(table[0].limit.width, table[0].ratePercent) + FullFiniteBandsTax(table[1..])
    ensures BandAmount(table[0], remaining) == table[0].limit.width
    ensures remaining - table[0].limit.width >= FiniteWidthSum(table[1..])
  {
    FiniteWidthSumNonNegative(table[1..]);
  }

  /** When the taxable income covers every finite width, each finite band's
      entry is allocated exactly that band's width. */
  lemma {:induction false} AllocateFullBand(table: seq<TaxBand>, remaining: real, k: nat)
    requires Layered(table)
    requires remaining >= FiniteWidthSum(table) && k < |table| - 1
    ensures table[k].limit.Finite?
    ensures Allocate(table, remaining)[k].taxableAmount == table[k].limit.width
  {
    AllocateCons(table, remaining);
    FiniteHead(table, remaining);
    if k > 0 {
      AllocateFullBand(table[1..], remaining - table[0].limit.width, k - 1);
    }
  }

  /** When the taxable income covers every finite width, the unbounded last
      band's entry is allocated the whole excess. */
  lemma {:induction false} AllocateExcess(table: seq<TaxBand>, remaining: real)
    requires Layered(table)
    requires remaining >= FiniteWidthSum(table)
    ensures Allocate(table, remaining)[|table| - 1].taxableAmount
         == remaining - FiniteWidthSum(table)
  {
    AllocateCons(table, remaining);
    if |table| == 1 {
      assert table[1..] == [];
    } else {
      FiniteHead(table, remaining);
      AllocateExcess(table[1..], remaining - table[0].limit.width);
    }
  }

  /** For one band with a non-negative width, more unallocated income gives at
      least as large an amount and leaves at least as much for the next band. */
  lemma BandAmountMonotone(band: TaxBand, lo: real, hi: real)
    requires band.limit.Finite? ==> band.limit.width >= 0.0
    requires lo <= hi
    ensures BandAmount(band, lo) <= BandAmount(band, hi)
    ensures lo - BandAmount(band, lo) <= hi - BandAmount(band, hi)
  {
  }

  /** The tax the walk charges on `remaining`, band by band, without building
      the entries. It is the same figure as `TotalTax(Allocate(table, remaining))`
      (`TotalTaxIsWalkTax`); the proofs about the tax above the finite widths and
      about monotonicity recurse on this form because it has no entry list to
      carry along. */
  function WalkTax(table: seq<TaxBand>, remaining: real): real
  {
    if table == [] then 0.0
    else
      var x := BandAmount(table[0], remaining);
      Levy(x, table[0].ratePercent) + WalkTax(table[1..], remaining - x)
  }

  /** The walk's tax is the first band's amount at its rate plus the walk over the rest. */
  lemma WalkTaxCons(table: seq<TaxBand>, remaining: real, x: real)
    requires table != [] && x == BandAmount(table[0], remaining)
    ensures WalkTax(table, remaining) == Levy(x, table[0].ratePercent) + WalkTax(table[1..], remaining - x)
  {
  }

  /** The entries' tax adds up to the walk's tax. */
  lemma {:induction false} TotalTaxIsWalkTax(table: seq<TaxBand>, remaining: real)
    ensures TotalTax(Allocate(table, remaining)) == WalkTax(table, remaining)
  {
    if table != [] {
      var x := BandAmount(table[0], remaining);
      TotalTaxCons(table, remaining, x);
      TotalTaxIsWalkTax(table[1..], remaining - x);
    } else {
      assert Allocate(table, remaining) == [];
    }
  }

  /** When the remaining income covers every finite width, the walk's tax is that
      of the full finite bands plus the excess at the top band's rate. */
  lemma {:induction false} WalkTaxAboveFiniteBands(table: seq<TaxBand>, remaining: real)
    requires Layered(table)
    requires remaining >= FiniteWidthSum(table)
    ensures WalkTax(table, remaining) == FullFiniteBandsTax(table)
              + Levy(remaining - FiniteWidthSum(table), table[|table| - 1].ratePercent)
  {
    if |table| == 1 {
      assert table[1..] == [];
      assert FiniteWidthSum(table) == 0.0 && FullFiniteBandsTax(table) == 0.0;
      WalkTaxCons(table, remaining, remaining);
    } else {
      var tail := table[1..];
      var w := table[0].limit.width;
      FiniteHead(table, remaining);
      WalkTaxCons(table, remaining, w);
      WalkTaxAboveFiniteBands(tail, remaining - w);
      assert table[|table| - 1] == tail[|tail| - 1];
      assert remaining - w - FiniteWidthSum(tail) == remaining - FiniteWidthSum(table);
    }
  }

  /** When the taxable income covers every finite width, the entries' tax is that
      of the full finite bands plus the excess at the top band's rate. */
  lemma TaxAboveFiniteBands(table: seq<TaxBand>, remaining: real)
    requires TopUnbounded(table) && WidthsNonNegative(table)
    requires remaining >= FiniteWidthSum(table)
    ensures TotalTax(Allocate(table, remaining)) == FullFiniteBandsTax(table)
              + Levy(remaining - FiniteWidthSum(table), table[|table| - 1].ratePercent)
  {
    LayeredOf(table);
    TotalTaxIsWalkTax(table, remaining);
    WalkTaxAboveFiniteBands(table, remaining);
  }

  /** With non-negative widths, more remaining income never means more tax from
      the walk. */
  lemma {:induction false} WalkTaxMonotone(table: seq<TaxBand>, lo: real, hi: real)
    requires WidthsNonNegative(table) && lo <= hi
    ensures WalkTax(table, lo) <= WalkTax(table, hi)
  {
    if table != [] {
      var x := BandAmount(table[0], lo);
      var y := BandAmount(table[0], hi);
      BandAmountMonotone(table[0], lo, hi);
      LevyMonotone(x, y, table[0].ratePercent);
      TailShape(table);
      WalkTaxMonotone(table[1..], lo - x, hi - y);
      WalkTaxCons(table, lo, x);
      WalkTaxCons(table, hi, y);
    }
  }

  /** With non-negative widths, more taxable income never means less tax. */
  lemma AllocateTaxMonotone(table: seq<TaxBand>, lo: real, hi: real)
    requires WidthsNonNegative(table) && lo <= hi
    ensures TotalTax(Allocate(table, lo)) <= TotalTax(Allocate(table, hi))
  {
    TotalTaxIsWalkTax(table, lo);
    TotalTaxIsWalkTax(table, hi);
    WalkTaxMonotone(table, lo, hi);
  }

  // ---------------------------------------------------------------------------
  // The engine
  // ---------------------------------------------------------------------------

  /** The whole calculation over a band table. */
  function Calculate(inputs: TaxInputs, table: seq<TaxBand>): (r: TaxCalculationResult)
    ensures |r.bands| == |table| && r.taxableIncome >= 0.0
    ensures r.cra >= 200000.0 + 0.20 * r.annualGross
    ensures r.netMonthlyIncome + r.monthlyTax == inputs.monthlyGrossIncome
  {
    var annualGross := AnnualGross(inputs);
    var cra := ConsolidatedRelief(annualGross);
    var deductions := AllowableDeductions(inputs);
    var taxable := TaxableIncome(annualGross, cra, deductions);
    var bands := Allocate(table, taxable);
    var annualTax := TotalTax(bands);
    var monthlyTax := annualTax / 12.0;
    TaxCalculationResult(annualGross, cra, deductions, taxable, annualTax,
                         monthlyTax, inputs.monthlyGrossIncome - monthlyTax, bands)
  }

  /** The band walk as the program runs it: one pass over the table that
      appends an entry per band, accumulates the tax, and lowers what remains. */
  method WalkBands(table: seq<TaxBand>, taxableIncome: real)
    returns (bands: seq<TaxBandResult>, totalAnnualTax: real)
    ensures bands == Allocate(table, taxableIncome)
    ensures totalAnnualTax == TotalTax(bands)
  {
    var remainingTaxable := taxableIncome;
    totalAnnualTax := 0.0;
    bands := [];

    ghost var expected := Allocate(table, taxableIncome);
    for i := 0 to |table|
      invariant bands == expected[..i]
      invariant remainingTaxable == RemainingBefore(table, taxableIncome, i)
      invariant totalAnnualTax == TotalTax(bands)
    {
      var band := table[i];
      WalkStep(table, taxableIncome, i);
      if remainingTaxable <= 0.0 {
        LevyOfZero(band.ratePercent);
        assert Charge(band, BandAmount(band, remainingTaxable))
            == TaxBandResult(band.labelText, Rate(band), 0.0, 0.0);
        bands := bands + [TaxBandResult(band.labelText, Rate(band), 0.0, 0.0)];
        continue;
      }

      var amountInBand := CapAt(remainingTaxable, band.limit);
      var taxInBand := amountInBand * Rate(band);
      LevyAtRate(amountInBand, band);
      assert Charge(band, BandAmount(band, remainingTaxable))
          == TaxBandResult(band.labelText, Rate(band), amountInBand, taxInBand);
      bands := bands + [TaxBandResult(band.labelText, Rate(band), amountInBand, taxInBand)];

      totalAnnualTax := totalAnnualTax + taxInBand;
      remainingTaxable := remainingTaxable - amountInBand;
    }
    assert bands == expected;
  }

  /** The engine as the program runs it: straight-line relief arithmetic, then
      the band walk over the statutory table, then the monthly views. */
  method CalculateTax(inputs: TaxInputs) returns (result: TaxCalculationResult)
    ensures result == Calculate(inputs, TaxBands)
  {
    var annualGross := (inputs.monthlyGrossIncome + inputs.otherIncome) * 12.0;

    var baseCra := Max(200000.0, 0.01 * annualGross);
    var percentCra := 0.20 * annualGross;
    var totalCra := baseCra + percentCra;

    var totalAllowableDeductions :=
      (inputs.pensionContribution + inputs.nhfContribution + inputs.otherDeductions) * 12.0;

    var taxableIncome := annualGross - totalCra - totalAllowableDeductions;
    taxableIncome := Max(0.0, taxableIncome);

    var bands, totalAnnualTax := WalkBands(TaxBands, taxableIncome);

    var monthlyTax := totalAnnualTax / 12.0;
    var netMonthlyIncome := inputs.monthlyGrossIncome - monthlyTax;

    result := TaxCalculationResult(annualGross, totalCra, totalAllowableDeductions, taxableIncome,
                                   totalAnnualTax, monthlyTax, netMonthlyIncome, bands);
  }
}
