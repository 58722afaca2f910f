/** How the two copies of the calculation relate, and what the eligibility
    rules guarantee the calculation. */
module VariantAgreement {
  import opened MortgageTypes
  import MortgageServices
  import CalculateMortgage
  import CmhcPremiumRate
  import PremiumTable
  import ValidationRules

  /** Both `getPaymentsPerYear` switches give the same answer for every label:
      the `24;` of the second is dead code. */
  lemma PaymentsPerYearAgree(schedule: string)
    ensures MortgageServices.PaymentsPerYear(schedule) == CalculateMortgage.PaymentsPerYear(schedule)
    ensures CalculateMortgage.PaymentsPerYear(BIWEEKLY) == Ok(26)
  {
  }

  /** Both payment amounts agree on every input. */
  lemma PaymentAmountsAgree(principal: real, annualInterestRate: real, amortizationYears: int, schedule: string)
    requires annualInterestRate >= 0.0 && amortizationYears >= 1
    ensures MortgageServices.PaymentAmount(principal, annualInterestRate, amortizationYears, schedule)
         == CalculateMortgage.PaymentAmount(principal, annualInterestRate, amortizationYears, schedule)
  {
    PaymentsPerYearAgree(schedule);
  }

  predicate UnderFivePercentTraditional(data: MortgageRequest)
    requires data.propertyPrice != 0.0
  {
    && data.employmentType == Regular
    && data.downPaymentSource == Traditional
    && DownPaymentPercent(data.propertyPrice, data.downPayment) < 5.0
  }

  /** On the same percentage the two selectors agree, except for a regular
      borrower with a traditional source under 5% down: the amount-based one
      refuses, the percentage-based one charges 4.00% (plus any surcharge). */
  lemma PremiumRatesAgree(data: MortgageRequest)
    requires data.propertyPrice != 0.0
    ensures var pct := DownPaymentPercent(data.propertyPrice, data.downPayment);
            var byAmount := CmhcPremiumRate.PremiumRate(CalculateMortgage.RateInput(data));
            var byPercent := MortgageServices.PremiumRate(pct, data.amortizationPeriod, data.isFirstTimeBuyer,
                                                          data.isNewConstruction, data.downPaymentSource,
                                                          data.employmentType);
      if UnderFivePercentTraditional(data)
      then byAmount == Err(MINIMUM_FIVE_PERCENT)
        && byPercent == Ok(0.0400 + PremiumTable.Surcharge(pct, data.amortizationPeriod,
                                                           data.isFirstTimeBuyer, data.isNewConstruction))
      else byAmount == byPercent
  {
    var pct := DownPaymentPercent(data.propertyPrice, data.downPayment);
    CmhcPremiumRate.PremiumRateIsTable(CalculateMortgage.RateInput(data));
    MortgageServices.PremiumRateFollowsTable(pct, data.amortizationPeriod, data.isFirstTimeBuyer,
                                             data.isNewConstruction, data.downPaymentSource,
                                             data.employmentType);
  }

  /** The two calculations give the same result, error or response, on every
      request except a regular borrower's traditional down payment under 5%;
      there the second refuses with the 5% message, and the first succeeds
      exactly when the schedule is known. */
  lemma CalculationsAgree(data: MortgageRequest)
    requires data.propertyPrice != 0.0
    requires data.annualInterestRate >= 0.0 && data.amortizationPeriod >= 1
    ensures if UnderFivePercentTraditional(data)
      then CalculateMortgage.CalculateMortgage(data) == Err(MINIMUM_FIVE_PERCENT)
        && (MortgageServices.CalculateMortgage(data).Ok? <==> IsScheduleLabel(data.paymentSchedule))
      else CalculateMortgage.CalculateMortgage(data) == MortgageServices.CalculateMortgage(data)
  {
    if UnderFivePercentTraditional(data) {
      assert CmhcPremiumRate.PremiumRate(CalculateMortgage.RateInput(data)) == Err(MINIMUM_FIVE_PERCENT);
    } else {
      SameRateSameCalculation(data);
    }
  }

  lemma SameRateSameCalculation(data: MortgageRequest)
    requires data.propertyPrice != 0.0
    requires data.annualInterestRate >= 0.0 && data.amortizationPeriod >= 1
    requires !UnderFivePercentTraditional(data)
    ensures CalculateMortgage.CalculateMortgage(data) == MortgageServices.CalculateMortgage(data)
  {
    PremiumRatesAgree(data);
    var rate := PercentRate(data);
    if rate.Ok? {
      var total := InsuredTotal(data, rate.value);
      PaymentAmountsAgree(total, data.annualInterestRate, data.amortizationPeriod, data.paymentSchedule);
      if MortgageServices.PaymentAmount(total, data.annualInterestRate, data.amortizationPeriod,
                                        data.paymentSchedule).Ok? {
        SameResponse(data);
      } else {
        SamePaymentError(data);
      }
    } else {
      SameRateError(data);
    }
  }

  /** The percentage-based selector's answer for a request. */
  function PercentRate(data: MortgageRequest): Result<real>
    requires data.propertyPrice != 0.0
  {
    MortgageServices.PremiumRate(DownPaymentPercent(data.propertyPrice, data.downPayment),
                                 data.amortizationPeriod, data.isFirstTimeBuyer, data.isNewConstruction,
                                 data.downPaymentSource, data.employmentType)
  }

  function InsuredTotal(data: MortgageRequest, rate: real): real
  {
    (data.propertyPrice - data.downPayment) + (data.propertyPrice - data.downPayment) * rate
  }

  lemma SameRateError(data: MortgageRequest)
    requires data.propertyPrice != 0.0
    requires data.annualInterestRate >= 0.0 && data.amortizationPeriod >= 1
    requires PercentRate(data).Err?
    requires CmhcPremiumRate.PremiumRate(CalculateMortgage.RateInput(data)) == PercentRate(data)
    ensures CalculateMortgage.CalculateMortgage(data) == MortgageServices.CalculateMortgage(data)
  {
    assert MortgageServices.CalculateMortgage(data) == Err(PercentRate(data).message);
    assert CalculateMortgage.CalculateMortgage(data) == Err(PercentRate(data).message);
  }

  lemma SamePaymentError(data: MortgageRequest)
    requires data.propertyPrice != 0.0
    requires data.annualInterestRate >= 0.0 && data.amortizationPeriod >= 1
    requires PercentRate(data).Ok?
    requires CmhcPremiumRate.PremiumRate(CalculateMortgage.RateInput(data)) == PercentRate(data)
    requires MortgageServices.PaymentAmount(InsuredTotal(data, PercentRate(data).value), data.annualInterestRate,
                                            data.amortizationPeriod, data.paymentSchedule).Err?
    requires CalculateMortgage.PaymentAmount(InsuredTotal(data, PercentRate(data).value), data.annualInterestRate,
                                             data.amortizationPeriod, data.paymentSchedule)
          == MortgageServices.PaymentAmount(InsuredTotal(data, PercentRate(data).value), data.annualInterestRate,
                                            data.amortizationPeriod, data.paymentSchedule)
    ensures CalculateMortgage.CalculateMortgage(data) == MortgageServices.CalculateMortgage(data)
  {
    var payment := MortgageServices.PaymentAmount(InsuredTotal(data, PercentRate(data).value),
                                                  data.annualInterestRate, data.amortizationPeriod,
                                                  data.paymentSchedule);
    assert MortgageServices.CalculateMortgage(data) == Err(payment.message);
    assert CalculateMortgage.CalculateMortgage(data) == Err(payment.message);
  }

  lemma SameResponse(data: MortgageRequest)
    requires data.propertyPrice != 0.0
    requires data.annualInterestRate >= 0.0 && data.amortizationPeriod >= 1
    requires PercentRate(data).Ok?
    requires CmhcPremiumRate.PremiumRate(CalculateMortgage.RateInput(data)) == PercentRate(data)
    requires MortgageServices.PaymentAmount(InsuredTotal(data, PercentRate(data).value), data.annualInterestRate,
                                            data.amortizationPeriod, data.paymentSchedule).Ok?
    requires CalculateMortgage.PaymentAmount(InsuredTotal(data, PercentRate(data).value), data.annualInterestRate,
                                             data.amortizationPeriod, data.paymentSchedule)
          == MortgageServices.PaymentAmount(InsuredTotal(data, PercentRate(data).value), data.annualInterestRate,
                                            data.amortizationPeriod, data.paymentSchedule)
    ensures CalculateMortgage.CalculateMortgage(data) == MortgageServices.CalculateMortgage(data)
  {
    var c1 := CalculateMortgage.CalculateMortgage(data);
    var c2 := MortgageServices.CalculateMortgage(data);
    assert c1.Ok? && c2.Ok?;
    assert c1.value.cmhcPremiumRate == c2.value.cmhcPremiumRate;
    assert c1.value.totalMortgage == c2.value.totalMortgage;
    assert c1.value.paymentAmount == c2.value.paymentAmount;
  }

  /** Where both calculations succeed, their responses are the same. */
  lemma ResponsesAgreeWhenBothSucceed(data: MortgageRequest)
    requires data.propertyPrice != 0.0
    requires data.annualInterestRate >= 0.0 && data.amortizationPeriod >= 1
    requires CalculateMortgage.CalculateMortgage(data).Ok? && MortgageServices.CalculateMortgage(data).Ok?
    ensures CalculateMortgage.CalculateMortgage(data) == MortgageServices.CalculateMortgage(data)
  {
    CalculationsAgree(data);
  }

  /** A request that passes every eligibility rule, with the percentage the
      calculation uses, is never refused by either premium selector; with a
      known schedule both calculations then succeed with the same response. */
  lemma PassingRulesMeansInsurable(data: MortgageRequest, minimumDownPayment: real)
    requires data.propertyPrice != 0.0
    requires data.annualInterestRate >= 0.0 && data.amortizationPeriod >= 1
    requires ValidationRules.Passes(ValidationRules.GetMortgageValidationRules(
               data, DownPaymentPercent(data.propertyPrice, data.downPayment), minimumDownPayment))
    ensures CmhcPremiumRate.PremiumRate(CalculateMortgage.RateInput(data)).Ok?
    ensures IsScheduleLabel(data.paymentSchedule) ==>
      && CalculateMortgage.CalculateMortgage(data).Ok?
      && CalculateMortgage.CalculateMortgage(data) == MortgageServices.CalculateMortgage(data)
  {
    var pct := DownPaymentPercent(data.propertyPrice, data.downPayment);
    var rules := ValidationRules.GetMortgageValidationRules(data, pct, minimumDownPayment);
    assert !rules[2].condition;
    assert !rules[4].condition;
    CalculationsAgree(data);
  }
}
