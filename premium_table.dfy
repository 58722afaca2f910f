/** The insurance premium schedule stated as a table, independently of the
    nested branching in either service: a base rate for each down-payment
    band and borrower category (or no rate: not insurable), plus the
    extended-amortization premium. Both premium-rate functions are proved
    against it. */
module PremiumTable {
  import opened MortgageTypes

  /** Down-payment bands; every lower edge is inclusive. */
  datatype Band = Under5 | From5To10 | From10To15 | From15To20 | From20

  function BandOf(pct: real): Band
  {
    if pct >= 20.0 then From20
    else if pct >= 15.0 then From15To20
    else if pct >= 10.0 then From10To15
    else if pct >= 5.0 then From5To10
    else Under5
  }

  /** The base rate of a band for a borrower; `None` where the borrower cannot
      be insured at that band. */
  function TableRate(band: Band, source: DownPaymentSource, employment: EmploymentType): Option<real>
  {
    match band
    case From20 => Some(0.0)
    case From15To20 => Some(if employment == SelfEmployedNonVerified then 0.0290 else 0.0280)
    case From10To15 => Some(if employment == SelfEmployedNonVerified then 0.0475 else 0.0310)
    case From5To10 =>
      if employment == SelfEmployedNonVerified then None
      else if source == NonTraditional then Some(0.0450)
      else Some(0.0400)
    case Under5 =>
      if employment == SelfEmployedNonVerified then None
      else if source == NonTraditional then Some(0.0450)
      else None
  }

  /** Why a borrower without a rate is refused. */
  function Refusal(employment: EmploymentType): string
  {
    if employment == SelfEmployedNonVerified then SELF_EMPLOYED_MINIMUM else MINIMUM_FIVE_PERCENT
  }

  /** The rates an insured loan can start from, before any surcharge. */
  const BASE_RATES: set<real> := {0.0280, 0.0290, 0.0310, 0.0400, 0.0450, 0.0475}

  const EXTENDED_AMORTIZATION_PREMIUM: real := 0.0020

  /** The surcharge for an amortization beyond 25 years, which only first-time
      buyers and buyers of new construction may take, on insured loans only. */
  function Surcharge(pct: real, amortizationPeriod: int, isFirstTimeBuyer: bool,
                     isNewConstruction: bool): real
  {
    if pct < 20.0 && amortizationPeriod > 25 && (isFirstTimeBuyer || isNewConstruction)
    then EXTENDED_AMORTIZATION_PREMIUM else 0.0
  }

  function ScheduledRate(pct: real, amortizationPeriod: int, isFirstTimeBuyer: bool,
                         isNewConstruction: bool, source: DownPaymentSource,
                         employment: EmploymentType): Result<real>
  {
    match TableRate(BandOf(pct), source, employment)
    case Some(base) => Ok(base + Surcharge(pct, amortizationPeriod, isFirstTimeBuyer, isNewConstruction))
    case None => Err(Refusal(employment))
  }

  /** Every scheduled rate is zero from 20% down, otherwise a base rate with or
      without the surcharge, and so lies between 0 and 0.0495. */
  lemma ScheduledRateShape(pct: real, amortizationPeriod: int, isFirstTimeBuyer: bool,
                           isNewConstruction: bool, source: DownPaymentSource,
                           employment: EmploymentType)
    ensures var r := ScheduledRate(pct, amortizationPeriod, isFirstTimeBuyer, isNewConstruction,
                                   source, employment);
      && (pct >= 20.0 ==> r == Ok(0.0))
      && (r.Ok? && pct < 20.0 ==>
            r.value - Surcharge(pct, amortizationPeriod, isFirstTimeBuyer, isNewConstruction) in BASE_RATES)
      && (r.Ok? ==> 0.0 <= r.value <= 0.0495)
  {
  }
}
