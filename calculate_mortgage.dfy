/** The second copy of the mortgage calculation: its own payments-per-year
    lookup and payment amount, with the premium rate taken from the
    amount-based selector. */
module CalculateMortgage {
  import opened MortgageTypes
  import opened JsSwitch
  import Amortization
  import CmhcPremiumRate
  import PremiumTable

  /** The `switch` of this copy's `getPaymentsPerYear`: the `biweekly` case
      holds the expression statement `24;`, which returns nothing, so control
      runs on into the accelerated-biweekly case. */
  const PAYMENTS_PER_YEAR_SWITCH: seq<Clause> := [
    Case(MONTHLY, [ReturnStmt(12)]),
    Case(BIWEEKLY, [ExprStmt(24)]),
    Case(ACCELERATED_BIWEEKLY, [ReturnStmt(26)]),
    Default([ThrowStmt(INVALID_SCHEDULE)])
  ]

  /** The 24 of the biweekly case is discarded and biweekly gets 26 payments. */
  lemma PaymentsPerYearSwitch(schedule: string)
    ensures Switch(PAYMENTS_PER_YEAR_SWITCH, schedule)
         == if IsScheduleLabel(schedule) then Returned(Frequency(schedule)) else Thrown(INVALID_SCHEDULE)
  {
    var cs := PAYMENTS_PER_YEAR_SWITCH;
    assert RunFrom(cs, 3) == Thrown(INVALID_SCHEDULE);
    assert RunFrom(cs, 2) == Returned(26);
    assert RunBody(cs[1].body[1..]) == Normal;
    assert RunBody(cs[1].body) == Normal;
    assert RunFrom(cs, 1) == Returned(26);
    assert RunFrom(cs, 0) == Returned(12);
    assert DefaultClause(cs, 3) == Some(3);
    assert DefaultClause(cs, 2) == Some(3);
    assert DefaultClause(cs, 1) == Some(3);
    assert DefaultClause(cs, 0) == Some(3);
    if schedule == MONTHLY {
      assert FirstCase(cs, schedule, 0) == Some(0);
    } else if schedule == BIWEEKLY {
      assert FirstCase(cs, schedule, 1) == Some(1);
      assert FirstCase(cs, schedule, 0) == Some(1);
    } else if schedule == ACCELERATED_BIWEEKLY {
      assert FirstCase(cs, schedule, 2) == Some(2);
      assert FirstCase(cs, schedule, 1) == Some(2);
      assert FirstCase(cs, schedule, 0) == Some(2);
    } else {
      assert FirstCase(cs, schedule, 4) == None;
      assert FirstCase(cs, schedule, 3) == None;
      assert FirstCase(cs, schedule, 2) == None;
      assert FirstCase(cs, schedule, 1) == None;
      assert FirstCase(cs, schedule, 0) == None;
    }
  }

  /** `getPaymentsPerYear` with the fall-through: 12 for monthly, 26 for
      biweekly and accelerated biweekly, an error for any other label. */
  function PaymentsPerYear(schedule: string): (r: Result<nat>)
    ensures r == if IsScheduleLabel(schedule) then Ok(Frequency(schedule)) else Err(INVALID_SCHEDULE)
  {
    PaymentsPerYearSwitch(schedule);
    match Switch(PAYMENTS_PER_YEAR_SWITCH, schedule)
    case Returned(v) => Ok(v)
    case Thrown(m) => Err(m)
    case Normal => assert false; Err(INVALID_SCHEDULE)
  }

  /** `calculatePaymentAmount`. */
  function PaymentAmount(principal: real, annualInterestRate: real, amortizationYears: int,
                         schedule: string): (r: Result<real>)
    requires annualInterestRate >= 0.0 && amortizationYears >= 1
    ensures r == if IsScheduleLabel(schedule)
                 then Ok(Amortization.PaymentFor(principal, annualInterestRate, amortizationYears,
                                                 Frequency(schedule), schedule == ACCELERATED_BIWEEKLY))
                 else Err(INVALID_SCHEDULE)
  {
    match PaymentsPerYear(schedule)
    case Err(m) => Err(m)
    case Ok(paymentsPerYear) =>
      Ok(Amortization.PaymentFor(principal, annualInterestRate, amortizationYears, paymentsPerYear,
                                 schedule == ACCELERATED_BIWEEKLY))
  }

  /** The selector's argument object, built from the request's fields. */
  function RateInput(data: MortgageRequest): CmhcPremiumRate.PremiumRateInput
  {
    CmhcPremiumRate.PremiumRateInput(data.propertyPrice, data.downPayment, data.amortizationPeriod,
                                     data.isFirstTimeBuyer, data.isNewConstruction,
                                     data.downPaymentSource, data.employmentType)
  }

  /** `calculateMortgage`, delegating the premium rate to the amount-based
      selector: it fails whenever that selector does, else on an unknown
      payment schedule. */
  function CalculateMortgage(data: MortgageRequest): (r: Result<MortgageResponse>)
    requires data.propertyPrice != 0.0
    requires data.annualInterestRate >= 0.0 && data.amortizationPeriod >= 1
    ensures var pct := DownPaymentPercent(data.propertyPrice, data.downPayment);
            var refused := pct < 20.0 &&
              ((data.employmentType == SelfEmployedNonVerified && pct < 10.0)
               || (data.employmentType == Regular && data.downPaymentSource == Traditional && pct < 5.0));
      && (r.Err? <==> refused || !IsScheduleLabel(data.paymentSchedule))
      && (r.Err? ==> r.message == if refused then PremiumTable.Refusal(data.employmentType)
                                  else INVALID_SCHEDULE)
      && (r.Ok? ==>
            && r.value.downPaymentPercentage == pct
            && r.value.mortgageBeforeCMHC == data.propertyPrice - data.downPayment
            && r.value.cmhcInsurance == r.value.mortgageBeforeCMHC * r.value.cmhcPremiumRate
            && r.value.totalMortgage == r.value.mortgageBeforeCMHC + r.value.cmhcInsurance
            && CmhcPremiumRate.PremiumRate(RateInput(data)) == Ok(r.value.cmhcPremiumRate)
            && PaymentAmount(r.value.totalMortgage, data.annualInterestRate, data.amortizationPeriod,
                             data.paymentSchedule) == Ok(r.value.paymentAmount)
            && 0.0 <= r.value.cmhcPremiumRate <= 0.0495
            && (r.value.cmhcPremiumRate == 0.0 ==> r.value.totalMortgage == r.value.mortgageBeforeCMHC)
            && (pct >= 20.0 ==> r.value.cmhcPremiumRate == 0.0))
  {
    var downPaymentPercentage := DownPaymentPercent(data.propertyPrice, data.downPayment);
    var mortgageBeforeCMHC := data.propertyPrice - data.downPayment;
    match CmhcPremiumRate.PremiumRate(RateInput(data))
    case Err(m) => Err(m)
    case Ok(cmhcPremiumRate) =>
      var cmhcInsurance := mortgageBeforeCMHC * cmhcPremiumRate;
      var totalMortgage := mortgageBeforeCMHC + cmhcInsurance;
      match PaymentAmount(totalMortgage, data.annualInterestRate, data.amortizationPeriod,
                          data.paymentSchedule)
      case Err(m) => Err(m)
      case Ok(paymentAmount) =>
        Ok(MortgageResponse(paymentAmount, cmhcInsurance, totalMortgage, mortgageBeforeCMHC,
                            downPaymentPercentage, cmhcPremiumRate))
  }
}
