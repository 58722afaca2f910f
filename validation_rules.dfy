/** The eligibility rules of a mortgage request: an ordered list of seven
    (condition, message) pairs built from the request, its down-payment
    percentage and the minimum down payment computed by the caller. */
module ValidationRules {
  import opened MortgageTypes

  datatype ValidationRule = ValidationRule(condition: bool, message: string)

  const OVER_1_5M_MESSAGE: string := "For properties over $1,500,000, minimum down payment is 20%"
  const EXCEEDS_PRICE_MESSAGE: string := "Down payment cannot exceed property price"
  const TIERED_MINIMUM_MESSAGE: string :=
    "For homes over $500,000, minimum down payment is 5% of first $500,000 and 10% of remaining amount"
  const AMORTIZATION_MESSAGE: string :=
    "Maximum amortization period is 25 years, unless you are a first-time home buyer or purchasing a newly-constructed home"

  /** `getMortgageValidationRules`. */
  function GetMortgageValidationRules(data: MortgageRequest, downPaymentPercent: real,
                                      minimumDownPayment: real): (rules: seq<ValidationRule>)
    ensures |rules| == 7
  {
    [
      ValidationRule(data.propertyPrice > 1500000.0 && downPaymentPercent < 20.0, OVER_1_5M_MESSAGE),
      ValidationRule(data.propertyPrice < data.downPayment, EXCEEDS_PRICE_MESSAGE),
      ValidationRule(downPaymentPercent < 10.0 && data.employmentType == SelfEmployedNonVerified,
                     SELF_EMPLOYED_MINIMUM),
      ValidationRule(data.propertyPrice > 500000.0 && data.downPayment < minimumDownPayment,
                     TIERED_MINIMUM_MESSAGE),
      ValidationRule(downPaymentPercent < 5.0, MINIMUM_FIVE_PERCENT),
      ValidationRule(data.amortizationPeriod > 25 && !(data.isFirstTimeBuyer || data.isNewConstruction),
                     AMORTIZATION_MESSAGE),
      ValidationRule(data.downPayment < minimumDownPayment,
                     if data.propertyPrice > 500000.0 then TIERED_MINIMUM_MESSAGE else MINIMUM_FIVE_PERCENT)
    ]
  }

  /** When each of the seven rules fires, in order. */
  lemma RuleConditions(data: MortgageRequest, downPaymentPercent: real, minimumDownPayment: real)
    ensures var rules := GetMortgageValidationRules(data, downPaymentPercent, minimumDownPayment);
      && (rules[0].condition <==> data.propertyPrice > 1500000.0 && downPaymentPercent < 20.0)
      && (rules[1].condition <==> data.downPayment > data.propertyPrice)
      && (rules[2].condition <==> downPaymentPercent < 10.0 && data.employmentType == SelfEmployedNonVerified)
      && (rules[3].condition <==> data.propertyPrice > 500000.0 && data.downPayment < minimumDownPayment)
      && (rules[4].condition <==> downPaymentPercent < 5.0)
      && (rules[5].condition <==>
            data.amortizationPeriod > 25 && !data.isFirstTimeBuyer && !data.isNewConstruction)
      && (rules[6].condition <==> data.downPayment < minimumDownPayment)
  {
  }

  /** Which text belongs to which rule. */
  lemma RuleMessages(data: MortgageRequest, downPaymentPercent: real, minimumDownPayment: real)
    ensures var rules := GetMortgageValidationRules(data, downPaymentPercent, minimumDownPayment);
      && rules[0].message == OVER_1_5M_MESSAGE
      && rules[1].message == EXCEEDS_PRICE_MESSAGE
      && rules[2].message == SELF_EMPLOYED_MINIMUM
      && rules[3].message == TIERED_MINIMUM_MESSAGE
      && rules[4].message == MINIMUM_FIVE_PERCENT
      && rules[5].message == AMORTIZATION_MESSAGE
      && rules[6].message == (if data.propertyPrice > 500000.0 then TIERED_MINIMUM_MESSAGE
                              else MINIMUM_FIVE_PERCENT)
  {
  }

  /** Every message but the seventh is the same whatever the arguments. */
  lemma MessagesAreFixed(d1: MortgageRequest, p1: real, m1: real, d2: MortgageRequest, p2: real, m2: real,
                         i: nat)
    requires i < 6
    ensures GetMortgageValidationRules(d1, p1, m1)[i].message == GetMortgageValidationRules(d2, p2, m2)[i].message
  {
  }

  /** The seventh message is the fourth rule's above $500,000 and the fifth
      rule's otherwise. */
  lemma SeventhMessage(data: MortgageRequest, downPaymentPercent: real, minimumDownPayment: real)
    ensures var rules := GetMortgageValidationRules(data, downPaymentPercent, minimumDownPayment);
      && (rules[6].message == rules[3].message <==> data.propertyPrice > 500000.0)
      && (rules[6].message == rules[4].message <==> data.propertyPrice <= 500000.0)
  {
  }

  /** The tiered-minimum rule never fires alone: the general minimum rule
      fires with it. */
  lemma TieredMinimumImpliesMinimum(data: MortgageRequest, downPaymentPercent: real, minimumDownPayment: real)
    ensures var rules := GetMortgageValidationRules(data, downPaymentPercent, minimumDownPayment);
      rules[3].condition ==> rules[6].condition && rules[6].message == rules[3].message
  {
  }

  /** Boundaries that do not fire: a down payment of the whole price, and an
      amortization of at most 25 years for anybody. */
  lemma BoundariesAllowed(data: MortgageRequest, downPaymentPercent: real, minimumDownPayment: real)
    ensures var rules := GetMortgageValidationRules(data, downPaymentPercent, minimumDownPayment);
      && (data.downPayment == data.propertyPrice ==> !rules[1].condition)
      && (data.amortizationPeriod <= 25 ==> !rules[5].condition)
  {
  }

  /** No rule fires. */
  predicate Passes(rules: seq<ValidationRule>)
  {
    forall i :: 0 <= i < |rules| ==> !rules[i].condition
  }
}
