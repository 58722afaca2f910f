/** Values shared by the mortgage services: the request and response records,
    the enumerations they use, the constraints the request schema enforces
    before any service runs, and the messages the services throw. */
module MortgageTypes {

  /** The outcome of an operation that may throw: the returned value, or the
      message of the `Error` it throws. */
  datatype Result<T> = Ok(value: T) | Err(message: string)

  datatype Option<T> = None | Some(value: T)

  datatype DownPaymentSource = Traditional | NonTraditional

  datatype EmploymentType = Regular | SelfEmployedNonVerified

  /** Payment schedules travel as their string labels: the services compare
      them with `===` and have a default branch for any other label. */
  const MONTHLY: string := "monthly"
  const BIWEEKLY: string := "biweekly"
  const ACCELERATED_BIWEEKLY: string := "accelerated-biweekly"

  predicate IsScheduleLabel(s: string) {
    s == MONTHLY || s == BIWEEKLY || s == ACCELERATED_BIWEEKLY
  }

  /** Payments per year for each schedule label: 12 for monthly payments,
      26 for both biweekly schedules. */
  function Frequency(s: string): nat
    requires IsScheduleLabel(s)
  {
    if s == MONTHLY then 12 else 26
  }

  datatype MortgageRequest = MortgageRequest(
    propertyPrice: real,
    downPayment: real,
    annualInterestRate: real,
    amortizationPeriod: int,
    paymentSchedule: string,
    isFirstTimeBuyer: bool,
    isNewConstruction: bool,
    downPaymentSource: DownPaymentSource,
    employmentType: EmploymentType)

  datatype MortgageResponse = MortgageResponse(
    paymentAmount: real,
    cmhcInsurance: real,
    totalMortgage: real,
    mortgageBeforeCMHC: real,
    downPaymentPercentage: real,
    cmhcPremiumRate: real)

  /** What the request schema admits: positive price and down payment, a rate
      between 0 and 100 percent, an amortization period of 5 to 30 years in
      steps of 5, and one of the three schedule labels. */
  predicate SchemaValid(d: MortgageRequest) {
    && d.propertyPrice > 0.0
    && d.downPayment > 0.0
    && 0.0 <= d.annualInterestRate <= 100.0
    && 5 <= d.amortizationPeriod <= 30
    && d.amortizationPeriod % 5 == 0
    && IsScheduleLabel(d.paymentSchedule)
  }

  /** A request the schema admits meets what every calculation requires. */
  lemma SchemaGivesRequires(d: MortgageRequest)
    requires SchemaValid(d)
    ensures d.propertyPrice != 0.0 && d.annualInterestRate >= 0.0 && d.amortizationPeriod >= 1
  {
  }

  /** The down payment as a percentage of the price, as both services compute it. */
  function DownPaymentPercent(price: real, downPayment: real): real
    requires price != 0.0
  {
    (downPayment / price) * 100.0
  }

  const INVALID_SCHEDULE: string := "Invalid payment schedule"
  const SELF_EMPLOYED_MINIMUM: string :=
    "Self-employed with non-verified income requires minimum 10% down payment"
  const MINIMUM_FIVE_PERCENT: string := "Minimum down payment must be 5% of property price"
}
