/** The mortgage service: payments per year for a schedule, the periodic
    payment, the insurance premium rate chosen from a down-payment
    percentage, and the calculation that composes them into a response. */
module MortgageServices {
  import opened MortgageTypes
  import opened JsSwitch
  import Amortization
  import PremiumTable

  /** The `switch` of `getPaymentsPerYear`: the `biweekly` case has no
      statements of its own and runs on into the accelerated-biweekly one. */
  const PAYMENTS_PER_YEAR_SWITCH: seq<Clause> := [
    Case(MONTHLY, [ReturnStmt(12)]),
    Case(BIWEEKLY, []),
    Case(ACCELERATED_BIWEEKLY, [ReturnStmt(26)]),
    Default([ThrowStmt(INVALID_SCHEDULE)])
  ]

  lemma PaymentsPerYearSwitch(schedule: string)
    ensures Switch(PAYMENTS_PER_YEAR_SWITCH, schedule)
         == if IsScheduleLabel(schedule) then Returned(Frequency(schedule)) else Thrown(INVALID_SCHEDULE)
  {
    var cs := PAYMENTS_PER_YEAR_SWITCH;
    assert RunFrom(cs, 3) == Thrown(INVALID_SCHEDULE);
    assert RunFrom(cs, 2) == Returned(26);
    assert RunBody(cs[1].body) == Normal;
    assert RunFrom(cs, 1) == Returned(26);
    assert RunFrom(cs, 0) == Returned(12);
    assert DefaultClause(cs, 3) == Some(3);
    assert DefaultClause(cs, 2) == Some(3);
    assert DefaultClause(cs, 1) == Some(3);
    assert DefaultClause(cs, 0) == Some(3);
    if schedule == MONTHLY {
      assert FirstCase(cs, schedule, 0) == Some(0);
    } else if schedule == BIWEEKLY {
      assert FirstCase(cs, schedule, 1) == Some(1);
      assert FirstCase(cs, schedule, 0) == Some(1);
    } else if schedule == ACCELERATED_BIWEEKLY {
      assert FirstCase(cs, schedule, 2) == Some(2);
      assert FirstCase(cs, schedule, 1) == Some(2);
      assert FirstCase(cs, schedule, 0) == Some(2);
    } else {
      assert FirstCase(cs, schedule, 4) == None;
      assert FirstCase(cs, schedule, 3) == None;
      assert FirstCase(cs, schedule, 2) == None;
      assert FirstCase(cs, schedule, 1) == None;
      assert FirstCase(cs, schedule, 0) == None;
    }
  }

  /** `getPaymentsPerYear`: 12 for monthly, 26 for biweekly and accelerated
      biweekly, an "Invalid payment schedule" error for any other label. */
  function PaymentsPerYear(schedule: string): (r: Result<nat>)
    ensures r == if IsScheduleLabel(schedule) then Ok(Frequency(schedule)) else Err(INVALID_SCHEDULE)
  {
    PaymentsPerYearSwitch(schedule);
    match Switch(PAYMENTS_PER_YEAR_SWITCH, schedule)
    case Returned(v) => Ok(v)
    case Thrown(m) => Err(m)
    case Normal => assert false; Err(INVALID_SCHEDULE)
  }

  /** `calculatePaymentAmount`. */
  function PaymentAmount(principal: real, annualInterestRate: real, amortizationYears: int,
                         schedule: string): (r: Result<real>)
    requires annualInterestRate >= 0.0 && amortizationYears >= 1
    ensures r == if IsScheduleLabel(schedule)
                 then Ok(Amortization.PaymentFor(principal, annualInterestRate, amortizationYears,
                                                 Frequency(schedule), schedule == ACCELERATED_BIWEEKLY))
                 else Err(INVALID_SCHEDULE)
  {
    match PaymentsPerYear(schedule)
    case Err(m) => Err(m)
    case Ok(paymentsPerYear) =>
      Ok(Amortization.PaymentFor(principal, annualInterestRate, amortizationYears, paymentsPerYear,
                                 schedule == ACCELERATED_BIWEEKLY))
  }

  /** `calculateCMHCPremiumRate` over a down-payment percentage. */
  function PremiumRate(downPaymentPercentage: real, amortizationPeriod: int, isFirstTimeBuyer: bool,
                       isNewConstruction: bool, downPaymentSource: DownPaymentSource,
                       employmentType: EmploymentType): (r: Result<real>)
    ensures downPaymentPercentage >= 20.0 ==> r == Ok(0.0)
    ensures r.Err? <==> employmentType == SelfEmployedNonVerified && downPaymentPercentage < 10.0
    ensures r.Err? ==> r.message == SELF_EMPLOYED_MINIMUM
    ensures r.Ok? && downPaymentPercentage < 20.0 ==>
      r.value - PremiumTable.Surcharge(downPaymentPercentage, amortizationPeriod, isFirstTimeBuyer,
                                       isNewConstruction) in PremiumTable.BASE_RATES
    ensures r.Ok? ==> 0.0 <= r.value <= 0.0495
  {
    if downPaymentPercentage >= 20.0 then Ok(0.0)
    else if employmentType == SelfEmployedNonVerified && downPaymentPercentage < 10.0 then
      Err(SELF_EMPLOYED_MINIMUM)
    else
      var baseRate :=
        if employmentType == SelfEmployedNonVerified then
          (if downPaymentPercentage >= 15.0 then 0.0290 else 0.0475)
        else if downPaymentSource == NonTraditional && downPaymentPercentage < 10.0 then 0.0450
        else if downPaymentPercentage >= 15.0 then 0.0280
        else if downPaymentPercentage >= 10.0 then 0.0310
        else 0.0400;
      Ok(if amortizationPeriod > 25 && (isFirstTimeBuyer || isNewConstruction)
         then baseRate + 0.0020 else baseRate)
  }

  /** The percentage-based selector follows the premium table everywhere but
      below 5% down for a regular borrower with a traditional source, where
      the table has no rate and this selector still charges 4.00%. */
  lemma PremiumRateFollowsTable(downPaymentPercentage: real, amortizationPeriod: int,
                                isFirstTimeBuyer: bool, isNewConstruction: bool,
                                downPaymentSource: DownPaymentSource, employmentType: EmploymentType)
    ensures var r := PremiumRate(downPaymentPercentage, amortizationPeriod, isFirstTimeBuyer,
                                 isNewConstruction, downPaymentSource, employmentType);
            var t := PremiumTable.ScheduledRate(downPaymentPercentage, amortizationPeriod, isFirstTimeBuyer,
                                                isNewConstruction, downPaymentSource, employmentType);
      if employmentType == Regular && downPaymentSource == Traditional && downPaymentPercentage < 5.0
      then t == Err(MINIMUM_FIVE_PERCENT)
        && r == Ok(0.0400 + PremiumTable.Surcharge(downPaymentPercentage, amortizationPeriod,
                                                  isFirstTimeBuyer, isNewConstruction))
      else r == t
  {
  }

  /** 15% down over 30 years for a first-time buyer: the 2.80% band plus the
      extended-amortization premium. */
  lemma ExtendedAmortizationExample()
    ensures PremiumRate(15.0, 30, true, false, Traditional, Regular) == Ok(0.0300)
  {
  }

  /** `calculateMortgage`: the down-payment percentage and the loan before
      insurance, the premium on it, the insured total and the payment on that
      total; it fails with the premium selector's error, else with the
      payment schedule's. */
  function CalculateMortgage(data: MortgageRequest): (r: Result<MortgageResponse>)
    requires data.propertyPrice != 0.0
    requires data.annualInterestRate >= 0.0 && data.amortizationPeriod >= 1
    ensures var pct := DownPaymentPercent(data.propertyPrice, data.downPayment);
      && (r.Err? <==> (data.employmentType == SelfEmployedNonVerified && pct < 10.0)
                      || !IsScheduleLabel(data.paymentSchedule))
      && (r.Err? ==> r.message == if data.employmentType == SelfEmployedNonVerified && pct < 10.0
                                  then SELF_EMPLOYED_MINIMUM else INVALID_SCHEDULE)
      && (r.Ok? ==>
            && r.value.downPaymentPercentage == pct
            && r.value.mortgageBeforeCMHC == data.propertyPrice - data.downPayment
            && r.value.cmhcInsurance == r.value.mortgageBeforeCMHC * r.value.cmhcPremiumRate
            && r.value.totalMortgage == r.value.mortgageBeforeCMHC + r.value.cmhcInsurance
            && PremiumRate(pct, data.amortizationPeriod, data.isFirstTimeBuyer, data.isNewConstruction,
                           data.downPaymentSource, data.employmentType) == Ok(r.value.cmhcPremiumRate)
            && PaymentAmount(r.value.totalMortgage, data.annualInterestRate, data.amortizationPeriod,
                             data.paymentSchedule) == Ok(r.value.paymentAmount)
            && 0.0 <= r.value.cmhcPremiumRate <= 0.0495
            && (pct >= 20.0 ==> r.value.cmhcPremiumRate == 0.0
                                && r.value.totalMortgage == r.value.mortgageBeforeCMHC))
  {
    var downPaymentPercentage := DownPaymentPercent(data.propertyPrice, data.downPayment);
    var mortgageBeforeCMHC := data.propertyPrice - data.downPayment;
    match PremiumRate(downPaymentPercentage, data.amortizationPeriod, data.isFirstTimeBuyer,
                      data.isNewConstruction, data.downPaymentSource, data.employmentType)
    case Err(m) => Err(m)
    case Ok(cmhcPremiumRate) =>
      var cmhcInsurance := mortgageBeforeCMHC * cmhcPremiumRate;
      var totalMortgage := mortgageBeforeCMHC + cmhcInsurance;
      match PaymentAmount(totalMortgage, data.annualInterestRate, data.amortizationPeriod,
                          data.paymentSchedule)
      case Err(m) => Err(m)
      case Ok(paymentAmount) =>
        Ok(MortgageResponse(paymentAmount, cmhcInsurance, totalMortgage, mortgageBeforeCMHC,
                            downPaymentPercentage, cmhcPremiumRate))
  }

  /** The payment in a response is, to within half a cent, one that repays the
      insured total over the amortization period (exactly, at a zero rate);
      for the accelerated schedule it is 26/24 of such a payment. */
  lemma CalculateMortgagePaymentRepays(data: MortgageRequest)
    requires data.propertyPrice != 0.0
    requires data.annualInterestRate >= 0.0 && data.amortizationPeriod >= 1
    requires CalculateMortgage(data).Ok?
    ensures IsScheduleLabel(data.paymentSchedule)
    ensures var v := CalculateMortgage(data).value;
            var f := Frequency(data.paymentSchedule);
            var r := Amortization.PeriodicRate(data.annualInterestRate, f);
            var u := Amortization.UnroundedPayment(v.totalMortgage, data.annualInterestRate,
                                                   data.amortizationPeriod, f, false);
      && Amortization.Balance(v.totalMortgage, r, u, f * data.amortizationPeriod) == 0.0
      && (data.annualInterestRate == 0.0 ==> v.paymentAmount == u)
      && (data.annualInterestRate > 0.0 ==>
            var scaled := if data.paymentSchedule == ACCELERATED_BIWEEKLY then u * (26.0 / 24.0) else u;
            -0.005 <= v.paymentAmount - scaled <= 0.005)
  {
    var v := CalculateMortgage(data).value;
    var f := Frequency(data.paymentSchedule);
    Amortization.UnroundedPaymentRepays(v.totalMortgage, data.annualInterestRate, data.amortizationPeriod, f);
    Amortization.PaymentForRounding(v.totalMortgage, data.annualInterestRate, data.amortizationPeriod, f,
                                    data.paymentSchedule == ACCELERATED_BIWEEKLY);
    if data.annualInterestRate > 0.0 && data.paymentSchedule == ACCELERATED_BIWEEKLY {
      Amortization.AcceleratedIsScaledBiweekly(v.totalMortgage, data.annualInterestRate,
                                               data.amortizationPeriod);
    }
  }

  /** 10% down on 500000 at a monthly schedule: 450000 before insurance,
      insured at 3.10%. */
  lemma TenPercentDownExample()
    ensures var r := CalculateMortgage(MortgageRequest(500000.0, 50000.0, 5.0, 25, MONTHLY, false, false,
                                                       Traditional, Regular));
      && r.Ok?
      && r.value.downPaymentPercentage == 10.0
      && r.value.mortgageBeforeCMHC == 450000.0
      && r.value.cmhcPremiumRate == 0.0310
      && r.value.totalMortgage == 463950.0
  {
    var data := MortgageRequest(500000.0, 50000.0, 5.0, 25, MONTHLY, false, false, Traditional, Regular);
    assert DownPaymentPercent(data.propertyPrice, data.downPayment) == 10.0;
    assert PremiumRate(10.0, 25, false, false, Traditional, Regular) == Ok(0.0310);
  }
}
