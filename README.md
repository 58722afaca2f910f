# Insured mortgage calculation, modelled in Dafny

The mortgage calculator takes a request with these fields:

- property price and down payment;
- annual interest rate and amortization period in years;
- payment schedule: `monthly`, `biweekly` or `accelerated-biweekly`;
- first-time-buyer and new-construction flags;
- down-payment source: traditional or non-traditional;
- employment type: regular or self-employed with non-verified income.

It answers with:

- the down-payment percentage;
- the loan before mortgage insurance;
- the insurance premium rate and premium;
- the insured total;
- the periodic payment.

The services hold this logic in two copies:

- `src/services/mortgageServices.ts` chooses the premium rate from the down-payment percentage.
- `src/services/calculateMortgage.ts` delegates the rate to the amount-based selector in `src/services/calculateCMHCPremiumRate.ts`. That selector also refuses a traditional down payment under 5%.

`src/services/validationRules.ts` builds the ordered list of seven eligibility rules.

The model is pure, like the source: every service is a leaf function over its inputs.

| file | module | models |
|---|---|---|
| `types.dfy` | `MortgageTypes` | request and response records, enumerations, schedule labels, thrown messages, `Result` for "returns or throws" |
| `js_switch.dfy` | `JsSwitch` | the JavaScript `switch` with fall-through between clauses |
| `amortization.dfy` | `Amortization` | the shared payment arithmetic: annuity formula, zero-rate branch, accelerated rescale, rounding to cents |
| `premium_table.dfy` | `PremiumTable` | an independent table of the premium schedule (band × borrower category, plus surcharge) |
| `mortgage_services.dfy` | `MortgageServices` | `src/services/mortgageServices.ts` |
| `cmhc_premium_rate.dfy` | `CmhcPremiumRate` | `src/services/calculateCMHCPremiumRate.ts` |
| `calculate_mortgage.dfy` | `CalculateMortgage` | `src/services/calculateMortgage.ts` |
| `validation_rules.dfy` | `ValidationRules` | `src/services/validationRules.ts` |
| `variant_agreement.dfy` | `VariantAgreement` | where the two copies agree and disagree, and what passing the rules guarantees |

Modelling choices:

- **Numbers.** All amounts are exact `real`s. `Math.pow` becomes `Pow(x, n)` over whole exponents.
- **Rounding.** `Number(payment.toFixed(2))` becomes `Round2`. It takes the magnitude to the nearest cent, with ties going up, and keeps the sign.
- **Errors.** A thrown `Error` becomes `Err(message)` carrying the source's exact message.
- **Schedules.** A payment schedule is its string label, so the `default: throw` of `getPaymentsPerYear` is reachable.
- **The biweekly fall-through.** Both `switch` statements are written as clause lists and run by `JsSwitch.Switch`. So the `case 'biweekly': 24;` of `calculateMortgage.ts:7` is modelled literally: `24;` is an expression statement that completes normally. Control falls into the next clause, and biweekly gets 26 payments a year.

Preconditions come from the request schema:

- a non-zero price (the percentage divides by it);
- a non-negative rate;
- an amortization of at least one year.

The zero-rate branch (`src/services/mortgageServices.ts:23-25`, and the same lines of `src/services/calculateMortgage.ts`) returns before the accelerated rescale and the rounding. So a zero-rate payment is `principal / totalPayments`, unrounded and never rescaled (`Amortization.ZeroRateIgnoresAcceleration`). As a consequence a tiny positive rate can cost less than a zero rate (`Amortization.ZeroRateBreaksMonotonicity`).

## Model

| member | source | states |
|---|---|---|
| MortgageServices.PaymentsPerYearSwitch | src/services/mortgageServices.ts:5-10 | the switch returns 12 for monthly and 26 for both biweekly labels (the empty biweekly case falls through), and throws the invalid-schedule message for any other label |
| MortgageServices.PaymentsPerYear | src/services/mortgageServices.ts:4-11 | `Ok(12)` for monthly, `Ok(26)` for biweekly and accelerated biweekly, `Err("Invalid payment schedule")` for every other string |
| MortgageServices.PaymentAmount | src/services/mortgageServices.ts:13-37 | an unknown schedule is the invalid-schedule error; otherwise the payment is the shared payment at that schedule's frequency, accelerated exactly for `accelerated-biweekly` |
| MortgageServices.PremiumRate | src/services/mortgageServices.ts:39-74 | 0 from 20% down whatever the flags; an error, with the self-employed message, exactly for a self-employed non-verified borrower under 10%; below 20% the rate less the surcharge is one of the six base rates; every rate lies in [0, 0.0495] |
| MortgageServices.PremiumRateFollowsTable | src/services/mortgageServices.ts:47-73 | equals the premium table on every input except a regular borrower with a traditional source under 5% down, where the table refuses and this selector charges 4.00% plus any surcharge |
| MortgageServices.ExtendedAmortizationExample | src/services/mortgageServices.ts:59-71 | 15% down over 30 years as a first-time buyer gives 0.0280 + 0.0020 = 0.0300 |
| MortgageServices.CalculateMortgage | src/services/mortgageServices.ts:76-107 | fails exactly for a self-employed non-verified borrower under 10% (that message) or an unknown schedule (the invalid-schedule message); on success the percentage is dp / price × 100, the loan before insurance is price − dp, the premium is that loan × rate, the total is loan + premium, the rate is the percentage-based selector's answer for the request and lies in [0, 0.0495], the payment is `PaymentAmount` of the total at the request's rate, period and schedule, and from 20% down the rate is 0 and the total is the loan |
| MortgageServices.CalculateMortgagePaymentRepays | src/services/mortgageServices.ts:92-97 | a successful response's payment meets three conditions: unrounded and unaccelerated, it leaves a zero balance after the last payment; at a zero rate it is exactly that payment; at a positive rate it is within half a cent of it, or of 26/24 of it for the accelerated schedule |
| MortgageServices.TenPercentDownExample | src/services/mortgageServices.ts:76-107 | 10% down on 500000: percentage 10, 450000 before insurance, rate 0.0310, total 463950 |
| CmhcPremiumRate.PremiumRate | src/services/calculateCMHCPremiumRate.ts:3-62 | the percentage is dp / value × 100, and from 20% down the rate is 0. It errs exactly below 20% for a self-employed non-verified borrower under 10% or a regular borrower with a traditional source under 5%, and the message names the reason. Below 20% the rate less the surcharge is a base rate, and every rate lies in [0, 0.0495] |
| CmhcPremiumRate.PremiumRateIsTable | src/services/calculateCMHCPremiumRate.ts:20-61 | the amount-based selector equals the independent premium table on every input (bands with inclusive lower edges, refusals, surcharge) |
| CmhcPremiumRate.NonTraditionalUnderTenPercent | src/services/calculateCMHCPremiumRate.ts:40-42 | a regular borrower's non-traditional down payment under 10% gets 0.0450 plus any surcharge, even under 5% |
| PremiumTable.ScheduledRateShape | src/services/calculateCMHCPremiumRate.ts:22-61 | a table rate is 0 from 20% down; otherwise it is a base rate from the six-rate set plus the surcharge, and so lies in [0, 0.0495] |
| CalculateMortgage.PaymentsPerYearSwitch | src/services/calculateMortgage.ts:5-10 | with `24;` in the biweekly case, the switch still returns 26 for biweekly: an expression statement completes normally and control falls into the next case |
| CalculateMortgage.PaymentsPerYear | src/services/calculateMortgage.ts:4-11 | `Ok(12)` for monthly, `Ok(26)` for biweekly and accelerated biweekly, the invalid-schedule error otherwise |
| CalculateMortgage.PaymentAmount | src/services/calculateMortgage.ts:13-37 | an unknown schedule is the invalid-schedule error; otherwise the shared payment at the schedule's frequency, accelerated exactly for `accelerated-biweekly` |
| CalculateMortgage.RateInput | src/services/calculateMortgage.ts:43-53 | the argument object passed to the amount-based selector, field for field from the request; no ensures of its own: the contract of `CalculateMortgage.CalculateMortgage` and the lemmas of `VariantAgreement` use it |
| CalculateMortgage.CalculateMortgage | src/services/calculateMortgage.ts:39-73 | fails exactly when the amount-based selector refuses (self-employed under 10%, regular and traditional under 5%, below 20% down) or the schedule is unknown, with the matching message; on success the same response identities, the rate is the amount-based selector's answer for the request's fields and lies in [0, 0.0495], the payment is `PaymentAmount` of the total, total == loan when the rate is 0, and rate 0 from 20% down |
| Amortization.Pow | src/services/mortgageServices.ts:27 | `Math.pow` at whole exponents; no ensures of its own: `PowPositive`, `PowBernoulli` and `PowMonotoneBase` carry its properties |
| Amortization.PeriodicRate | src/services/mortgageServices.ts:21 | the annual percentage over 100, divided by the payments per year; no ensures of its own: `PeriodicRateSign` and `PeriodicRateMonotone` carry its properties |
| Amortization.Annuity | src/services/mortgageServices.ts:27-30 | the annuity formula; no ensures of its own: `GrowthExceedsOne` (its divisor is positive), `AnnuityRepays`, `AnnuityPresentValue` and `AnnuityUpperBound` carry its properties |
| Amortization.Accelerate | src/services/mortgageServices.ts:32-34 | the accelerated payment is the payment × 26/24, any other payment is unchanged |
| Amortization.UnroundedPayment | src/services/mortgageServices.ts:20-34 | the payment before rounding: principal / total payments at a zero periodic rate, else the (possibly accelerated) annuity; no ensures of its own: `UnroundedPaymentRepays`, `UnroundedPaymentPresentValue`, `PlainPaymentQuotient`, `UnroundedPaymentMonotone`, `AcceleratedIsScaledBiweekly` and `PaymentPositive` carry its properties |
| Amortization.PaymentFor | src/services/mortgageServices.ts:20-36 | the value `calculatePaymentAmount` returns once the payments per year are known; no ensures of its own: `PaymentForRounding`, `ZeroRateIgnoresAcceleration`, `PaymentPositive`, `PaymentMonotone` and `ZeroRateBreaksMonotonicity` carry its properties |
| JsSwitch.Switch | src/services/mortgageServices.ts:5-10 | a `switch`: the first strictly equal case (else the default) runs on through later clauses until a return or throw; no ensures of its own: each copy's `PaymentsPerYearSwitch` states what it yields on that copy's clauses |
| Amortization.Round2 | src/services/mortgageServices.ts:36 | the rounded value is a whole number of cents, within half a cent of its argument, and not negative for a non-negative argument |
| Amortization.Round2Monotone | src/services/mortgageServices.ts:36 | rounding to cents preserves order on non-negative values |
| Amortization.PeriodicRateSign | src/services/mortgageServices.ts:21 | the periodic rate is non-negative, and zero exactly when the annual rate is |
| Amortization.PeriodicRateMonotone | src/services/mortgageServices.ts:21 | a higher annual rate gives a higher or equal periodic rate |
| Amortization.PowBernoulli | src/services/mortgageServices.ts:27 | (1 + r)^n ≥ 1 + n·r for r ≥ 0 |
| Amortization.PowMonotoneBase | src/services/mortgageServices.ts:27 | a larger positive base gives a larger or equal power |
| Amortization.GrowthExceedsOne | src/services/mortgageServices.ts:27-30 | for r > 0 and n ≥ 1, (1 + r)^n − 1 ≥ n·r > 0, so the annuity formula's divisor is never zero |
| Amortization.BalanceClosedForm | src/services/mortgageServices.ts:27-30 | after k periods of interest-then-payment, r × balance = P·r·(1+r)^k − payment·((1+r)^k − 1) |
| Amortization.AnnuityRepays | src/services/mortgageServices.ts:27-30 | the annuity payment leaves exactly zero owing after the n-th payment |
| Amortization.StraightLineBalance | src/services/mortgageServices.ts:23-25 | without interest, k payments reduce the balance by k × payment |
| Amortization.DiscountSumClosedForm | src/services/mortgageServices.ts:27-30 | r·(1+r)^n × (the sum of 1/(1+r)^j for j = 1..n) = (1+r)^n − 1 |
| Amortization.DiscountSumAntitone | src/services/mortgageServices.ts:27-30 | a higher rate lowers the present value of one unit per period |
| Amortization.AnnuityPresentValue | src/services/mortgageServices.ts:27-30 | the payments' present value over the n periods is the principal |
| Amortization.AnnuityUpperBound | src/services/mortgageServices.ts:27-30 | the annuity payment is at most principal / n plus one period's interest on the principal |
| Amortization.PaymentForRounding | src/services/mortgageServices.ts:23-36 | at a zero rate the payment is principal / (payments per year × years), unrounded and unaccelerated; at a positive rate it is whole cents within half a cent of the unrounded payment |
| Amortization.UnroundedPaymentPresentValue | src/services/mortgageServices.ts:23-30 | on both branches the unaccelerated payment's present value, over all payments at the periodic rate, is the principal |
| Amortization.UnroundedPaymentRepays | src/services/mortgageServices.ts:23-30 | on both branches the unaccelerated payment leaves zero owing after the last payment |
| Amortization.PlainPaymentQuotient | src/services/mortgageServices.ts:23-30 | the unaccelerated payment is principal divided by the (positive) present value of one unit per period |
| Amortization.AcceleratedIsScaledBiweekly | src/services/mortgageServices.ts:32-34 | at a positive rate the accelerated-biweekly payment before rounding is the biweekly one × 26/24 |
| Amortization.ZeroRateIgnoresAcceleration | src/services/mortgageServices.ts:23-25 | at a zero rate the accelerated and plain payments are the same |
| Amortization.PaymentPositive | src/services/mortgageServices.ts:23-36 | a positive principal gives a positive payment before rounding and a non-negative one after |
| Amortization.UnroundedPaymentMonotone | src/services/mortgageServices.ts:21-34 | before rounding, a higher rate never lowers the payment, across the zero-rate and annuity branches and with or without acceleration |
| Amortization.PaymentMonotone | src/services/mortgageServices.ts:21-36 | among positive rates, a higher rate never lowers the rounded payment |
| Amortization.ZeroRateBreaksMonotonicity | src/services/mortgageServices.ts:23-36 | 400000 over 25 years of monthly payments costs 1333.33 at 0.000001% but 400000/300 at 0%: only the non-zero branch rounds |
| MortgageTypes.DownPaymentPercent | src/services/mortgageServices.ts:77 | the down payment over the price, times 100, as also at src/services/calculateMortgage.ts:40 and src/services/calculateCMHCPremiumRate.ts:20; no ensures of its own: the contracts of both `PremiumRate` selectors, both `CalculateMortgage` functions and the `VariantAgreement` lemmas state their results in terms of it |
| MortgageTypes.SchemaGivesRequires | src/types/mortgage.schema.ts:4-42 | a request the schema admits has a non-zero price, a non-negative rate and an amortization of at least one year, which is what the calculations require |
| ValidationRules.GetMortgageValidationRules | src/services/validationRules.ts:8-39 | the list always has exactly seven rules |
| ValidationRules.RuleConditions | src/services/validationRules.ts:9-38 | when each rule fires, as an if-and-only-if per rule: (1) price > 1500000 and percentage < 20; (2) dp > price; (3) percentage < 10 and self-employed non-verified; (4) price > 500000 and dp < minimum; (5) percentage < 5; (6) amortization > 25 and neither first-time buyer nor new construction; (7) dp < minimum |
| ValidationRules.RuleMessages | src/services/validationRules.ts:11-37 | each rule's message: over-1.5M, exceeds-price, self-employed 10%, tiered minimum, 5% minimum, amortization, and for the seventh the tiered text above 500000, else the 5% text |
| ValidationRules.MessagesAreFixed | src/services/validationRules.ts:9-32 | each of the first six messages is the same for all arguments |
| ValidationRules.SeventhMessage | src/services/validationRules.ts:33-38 | the seventh message is the tiered-minimum text exactly when the price exceeds 500000, and the 5% text exactly otherwise |
| ValidationRules.TieredMinimumImpliesMinimum | src/services/validationRules.ts:21-38 | if the fourth rule fires, the seventh fires too, with the same message |
| ValidationRules.BoundariesAllowed | src/services/validationRules.ts:13-32 | a down payment equal to the price does not fire the second rule, and an amortization of at most 25 years never fires the sixth |
| VariantAgreement.PaymentsPerYearAgree | src/services/calculateMortgage.ts:4-11 | both payments-per-year lookups agree on every string; biweekly gives 26 in the copy with `24;` |
| VariantAgreement.PaymentAmountsAgree | src/services/calculateMortgage.ts:13-37 | both payment amounts agree on every input |
| VariantAgreement.PremiumRatesAgree | src/services/calculateCMHCPremiumRate.ts:20-61 | on the same percentage the two selectors agree except for a regular borrower with a traditional source under 5% down: the amount-based one refuses with the 5% message, the percentage-based one returns 0.0400 plus any surcharge |
| VariantAgreement.CalculationsAgree | src/services/calculateMortgage.ts:39-73 | the two calculations return the same error or response on every request except a regular, traditional request under 5% down; there the amount-based copy refuses with the 5% message, and the other succeeds exactly when the schedule is known |
| VariantAgreement.SameRateSameCalculation | src/services/calculateMortgage.ts:39-73 | outside that case, the two calculations are equal |
| VariantAgreement.SameRateError | src/services/calculateMortgage.ts:43-53 | when both selectors give the same error, both calculations throw it |
| VariantAgreement.SamePaymentError | src/services/calculateMortgage.ts:58-63 | when both selectors give the same rate and the payment is an error, both calculations throw that error |
| VariantAgreement.SameResponse | src/services/calculateMortgage.ts:65-72 | when both selectors give the same rate and the payment succeeds, both calculations return the same response |
| VariantAgreement.ResponsesAgreeWhenBothSucceed | src/services/calculateMortgage.ts:65-72 | where both calculations succeed, their responses are identical |
| VariantAgreement.PassingRulesMeansInsurable | src/services/validationRules.ts:17-27 | a request that fires none of the seven rules, at the percentage the calculation uses: the amount-based selector does not refuse it, and with a known schedule both calculations succeed with the same response |

## Left out

- HTTP routing, controllers, application set-up and process start-up carry no calculation logic. `src/routes/mortgageRoutes.ts`, `src/controllers/mortgageController.ts`, `src/app.ts` and `src/server.ts` are not part of this model.
- The browser front end (`src/public/js/mortgageCalculator.js`) is user interface and network I/O, and is not part of this model.
- The constant rate table and sample payload that the routes serve are not modelled. `PremiumTable` is this model's own statement of the premium schedule, not that payload.
- The request schema (`src/types/mortgage.schema.ts`) is a declaration over a validation library. Only its consequences are used. `MortgageTypes.SchemaValid` states its constraints on numbers and labels, and `MortgageTypes.SchemaGivesRequires` shows that they give what the services require: price ≠ 0, rate ≥ 0 and amortization ≥ 1.
- Negative rates are excluded, because the schema rejects them (src/types/mortgage.schema.ts:15). Amortization periods below one year are excluded because the schema's minimum is 5 years (line 20); at 0 the source divides by zero.
- Non-integer amortization periods are excluded because the schema admits only multiples of 5 (line 22); many of them would give `Math.pow` a fractional exponent.
- IEEE-754 double arithmetic is not modelled: binary rounding of every operation, tier edges such as whether 0.15 × 100 ≥ 15, and overflow of `Math.pow`. Amounts are exact reals.
- `Amortization.Round2`: rounds the exact real value, ties going up in magnitude. It does not model the binary representation `toFixed` rounds in JavaScript, nor its exponent notation for magnitudes of 10^21 and above.
- The minimum down payment is a parameter of `getMortgageValidationRules` and is computed elsewhere. It stays a parameter, and no formula for it is modelled.
- No code in these files consumes the rule list (for example, to report the first rule that fires), so only the list and `ValidationRules.Passes` are modelled.
- `JsSwitch` models only what the two switches use: return, expression and throw statements. A switch with no matching case and no default (completion `Normal`, which JavaScript returns as `undefined`) cannot occur in these switches, as the switch lemmas show.
