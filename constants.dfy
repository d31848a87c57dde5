/** The statutory progressive band table the PAYE engine walks, and the
    structural facts about it that the engine's guarantees rely on. */
module Constants {

  /** The width of a band: a finite amount of naira, or the sentinel for "no upper limit". */
  datatype Limit = Finite(width: real) | Unbounded

  /** A band of the table. Every statutory rate is a whole percentage, so the
      rate is held as that percentage: 15 stands for the rate 0.15. */
  datatype TaxBand = TaxBand(limit: Limit, ratePercent: nat, labelText: string)

  /** The bands in the order the engine consults them, lowest income first. */
  const TaxBands: seq<TaxBand> := [
    TaxBand(Finite(800000.0), 0, "First ₦800,000"),
    TaxBand(Finite(2199999.0), 15, "Next ₦2,199,999 (Up to ₦2.99m)"),
    TaxBand(Finite(9000000.0), 18, "Next ₦9,000,000 (Up to ₦11.99m)"),
    TaxBand(Finite(13000000.0), 21, "Next ₦13,000,000 (Up to ₦24.99m)"),
    TaxBand(Finite(25000000.0), 23, "Next ₦25,000,000 (Up to ₦49.99m)"),
    TaxBand(Unbounded, 25, "Above ₦50,000,000")
  ]

  /** A band's rate as the fraction the program stores (0.15 for 15%). */
  function Rate(band: TaxBand): (r: real)
    ensures r >= 0.0
    ensures band.ratePercent <= 100 ==> r <= 1.0
  {
    band.ratePercent as real / 100.0
  }

  /** `amount` taxed at `percent`%, that is amount × percent / 100 (see
      `LevyIsProduct`). It is spelled as `percent` hundredths of the amount so
      that reasoning about a band's tax stays within linear arithmetic. */
  function Levy(amount: real, percent: nat): real
  {
    if percent == 0 then 0.0 else Levy(amount, percent - 1) + amount / 100.0
  }

  /** The levy is the amount multiplied by the rate. */
  lemma {:induction false} LevyIsProduct(amount: real, percent: nat)
    ensures Levy(amount, percent) == amount * (percent as real / 100.0)
  {
    if percent > 0 {
      LevyIsProduct(amount, percent - 1);
      assert amount * (percent as real / 100.0)
          == amount * ((percent - 1) as real / 100.0) + amount / 100.0;
    }
  }

  /** A band's levy on an amount is the amount times the band's stored rate. */
  lemma LevyAtRate(amount: real, band: TaxBand)
    ensures Levy(amount, band.ratePercent) == amount * Rate(band)
  {
    LevyIsProduct(amount, band.ratePercent);
  }

  /** A larger amount never owes less at the same rate. */
  lemma {:induction false} LevyMonotone(lo: real, hi: real, percent: nat)
    requires lo <= hi
    ensures Levy(lo, percent) <= Levy(hi, percent)
  {
    if percent > 0 {
      LevyMonotone(lo, hi, percent - 1);
    }
  }

  /** Nothing owes nothing. */
  lemma {:induction false} LevyOfZero(percent: nat)
    ensures Levy(0.0, percent) == 0.0
  {
    if percent > 0 {
      LevyOfZero(percent - 1);
    }
  }

  /** Only the last band is unbounded; every band before it has a finite width. */
  predicate TopUnbounded(table: seq<TaxBand>)
  {
    |table| > 0 && table[|table| - 1].limit.Unbounded? &&
    forall k :: 0 <= k < |table| - 1 ==> table[k].limit.Finite?
  }

  /** No finite band has a negative width. */
  predicate WidthsNonNegative(table: seq<TaxBand>)
  {
    forall k :: 0 <= k < |table| ==> (table[k].limit.Finite? ==> table[k].limit.width >= 0.0)
  }

  /** Every rate is at most 100% and rates never fall further down the table. */
  predicate Progressive(table: seq<TaxBand>)
  {
    (forall k :: 0 <= k < |table| ==> table[k].ratePercent <= 100) &&
    (forall j, k :: 0 <= j < k < |table| ==> table[j].ratePercent <= table[k].ratePercent)
  }

  /** Total of the finite widths of a table (an unbounded band contributes nothing). */
  function FiniteWidthSum(table: seq<TaxBand>): real
  {
    if table == [] then 0.0
    else (match table[0].limit
          case Finite(w) => w
          case Unbounded => 0.0) + FiniteWidthSum(table[1..])
  }

  /** Tax due on the finite bands when every one of them is filled to its width. */
  function FullFiniteBandsTax(table: seq<TaxBand>): real
  {
    if table == [] then 0.0
    else (match table[0].limit
          case Finite(w) => Levy(w, table[0].ratePercent)
          case Unbounded => 0.0) + FullFiniteBandsTax(table[1..])
  }

  /** The shape of the statutory table: six bands, only the last unbounded,
      positive finite widths, rates of at most 100% that never fall, and a
      tax-free first band of ₦800,000. */
  lemma TaxBandsWellFormed()
    ensures |TaxBands| == 6
    ensures TopUnbounded(TaxBands)
    ensures forall k :: 0 <= k < |TaxBands| - 1 ==> TaxBands[k].limit.width > 0.0
    ensures WidthsNonNegative(TaxBands)
    ensures Progressive(TaxBands)
    ensures forall k :: 0 <= k < |TaxBands| ==> 0.0 <= Rate(TaxBands[k]) <= 1.0
    ensures TaxBands[0].ratePercent == 0 && TaxBands[0].limit == Finite(800000.0)
  {
  }

  /** The finite widths add up to ₦49,999,999 and, filled, owe ₦10,429,999.85;
      income above that is taxed at the top rate of 25% alone. */
  lemma FiniteWidthTotal()
    ensures FiniteWidthSum(TaxBands) == 49999999.0
    ensures FullFiniteBandsTax(TaxBands) == 10429999.85
    ensures TaxBands[|TaxBands| - 1].ratePercent == 25
  {
    var t := TaxBands;
    LevyOfZero(0);
    LevyIsProduct(800000.0, 0);
    LevyIsProduct(2199999.0, 15);
    LevyIsProduct(9000000.0, 18);
    LevyIsProduct(13000000.0, 21);
    LevyIsProduct(25000000.0, 23);
    assert t[5..][1..] == [];
    assert FiniteWidthSum(t[5..]) == 0.0 && FullFiniteBandsTax(t[5..]) == 0.0;
    assert t[4..][1..] == t[5..];
    assert FiniteWidthSum(t[4..]) == 25000000.0 && FullFiniteBandsTax(t[4..]) == 5750000.0;
    assert t[3..][1..] == t[4..];
    assert FiniteWidthSum(t[3..]) == 38000000.0 && FullFiniteBandsTax(t[3..]) == 8480000.0;
    assert t[2..][1..] == t[3..];
    assert FiniteWidthSum(t[2..]) == 47000000.0 && FullFiniteBandsTax(t[2..]) == 10100000.0;
    assert t[1..][1..] == t[2..];
    assert FiniteWidthSum(t[1..]) == 49199999.0 && FullFiniteBandsTax(t[1..]) == 10429999.85;
  }
}
