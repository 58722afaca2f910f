/** The premium-rate selector that works from the property value and the down
    payment amount, and refuses a traditional down payment under 5%. */
module CmhcPremiumRate {
  import opened MortgageTypes
  import PremiumTable

  datatype PremiumRateInput = PremiumRateInput(
    propertyValue: real,
    downPaymentAmount: real,
    amortizationPeriod: int,
    isFirstTimeBuyer: bool,
    isNewConstruction: bool,
    downPaymentSource: DownPaymentSource,
    employmentType: EmploymentType)

  /** `calculateCMHCPremiumRate`: 0 from 20% down; otherwise the band's rate for
      the borrower, refused for an unverified self-employed borrower under 10%
      and for any other traditional down payment under 5%, plus 0.0020 for an
      extended amortization. */
  function PremiumRate(input: PremiumRateInput): (r: Result<real>)
    requires input.propertyValue != 0.0
    ensures var pct := DownPaymentPercent(input.propertyValue, input.downPaymentAmount);
      && (pct >= 20.0 ==> r == Ok(0.0))
      && (r.Err? <==>
            && pct < 20.0
            && ((input.employmentType == SelfEmployedNonVerified && pct < 10.0)
                || (input.employmentType == Regular && input.downPaymentSource == Traditional && pct < 5.0)))
      && (r.Err? ==> r.message == PremiumTable.Refusal(input.employmentType))
      && (r.Ok? && pct < 20.0 ==>
            r.value - PremiumTable.Surcharge(pct, input.amortizationPeriod, input.isFirstTimeBuyer,
                                             input.isNewConstruction) in PremiumTable.BASE_RATES)
      && (r.Ok? ==> 0.0 <= r.value <= 0.0495)
  {
    var downPaymentPercent := (input.downPaymentAmount / input.propertyValue) * 100.0;
    if downPaymentPercent >= 20.0 then Ok(0.0)
    else
      var baseRate: Result<real> :=
        if input.employmentType == SelfEmployedNonVerified then
          if downPaymentPercent < 10.0 then Err(SELF_EMPLOYED_MINIMUM)
          else if downPaymentPercent < 15.0 then Ok(0.0475)
          else Ok(0.0290)
        else if input.downPaymentSource == NonTraditional && downPaymentPercent < 10.0 then Ok(0.0450)
        else if downPaymentPercent < 5.0 then Err(MINIMUM_FIVE_PERCENT)
        else if downPaymentPercent < 10.0 then Ok(0.0400)
        else if downPaymentPercent < 15.0 then Ok(0.0310)
        else Ok(0.0280);
      match baseRate
      case Err(m) => Err(m)
      case Ok(rate) =>
        Ok(if (input.isFirstTimeBuyer || input.isNewConstruction) && input.amortizationPeriod > 25
           then rate + 0.0020 else rate)
  }

  /** The amount-based selector is exactly the premium table. */
  lemma PremiumRateIsTable(input: PremiumRateInput)
    requires input.propertyValue != 0.0
    ensures PremiumRate(input)
         == PremiumTable.ScheduledRate(DownPaymentPercent(input.propertyValue, input.downPaymentAmount),
                                       input.amortizationPeriod, input.isFirstTimeBuyer,
                                       input.isNewConstruction, input.downPaymentSource,
                                       input.employmentType)
  {
  }

  /** A non-traditional down payment under 10% is charged 4.50% (plus any
      surcharge) even below 5%: that path has no 5% refusal. */
  lemma NonTraditionalUnderTenPercent(input: PremiumRateInput)
    requires input.propertyValue != 0.0
    requires input.employmentType == Regular && input.downPaymentSource == NonTraditional
    requires DownPaymentPercent(input.propertyValue, input.downPaymentAmount) < 10.0
    ensures PremiumRate(input)
         == Ok(0.0450 + PremiumTable.Surcharge(DownPaymentPercent(input.propertyValue, input.downPaymentAmount),
                                               input.amortizationPeriod, input.isFirstTimeBuyer,
                                               input.isNewConstruction))
  {
  }
}
