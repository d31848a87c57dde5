/** Record shapes exchanged between the PAYE engine and its callers.
    Monetary amounts are exact reals in naira; the engine itself never
    validates them, so negative values are representable. */
module Types {

  /** How the taxpayer earns; carried through unchanged, never read by the engine. */
  datatype EmploymentType = Salaried | SelfEmployed

  /** One calculation request: five monthly money figures plus two informational fields. */
  datatype TaxInputs = TaxInputs(
    monthlyGrossIncome: real,
    otherIncome: real,
    employmentType: EmploymentType,
    pensionContribution: real,
    nhfContribution: real,
    otherDeductions: real,
    year: int)

  /** The share of annual taxable income that fell into one band, and the tax on it. */
  datatype TaxBandResult = TaxBandResult(
    labelText: string,
    rate: real,
    taxableAmount: real,
    taxPayable: real)

  /** Everything one calculation produces: annual figures, monthly views and the per-band breakdown. */
  datatype TaxCalculationResult = TaxCalculationResult(
    annualGross: real,
    cra: real,
    allowableDeductions: real,
    taxableIncome: real,
    annualTax: real,
    monthlyTax: real,
    netMonthlyIncome: real,
    bands: seq<TaxBandResult>)
}
