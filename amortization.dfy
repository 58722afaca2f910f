/** The payment arithmetic both copies of `calculatePaymentAmount` share once
    the payments per year are known: the annuity formula, its zero-rate
    straight-line branch, the accelerated-biweekly rescale and the rounding of
    `Number(payment.toFixed(2))`, together with the facts that give the
    formula its meaning (the payments repay the loan, their present value is
    the principal) and how the payment moves with the interest rate. */
module Amortization {

  /** `Math.pow(x, n)` for the whole exponents the services use. */
  function Pow(x: real, n: nat): real
  {
    if n == 0 then 1.0 else x * Pow(x, n - 1)
  }

  lemma {:induction false} PowPositive(x: real, n: nat)
    requires x > 0.0
    ensures Pow(x, n) > 0.0
  {
    if n > 0 {
      PowPositive(x, n - 1);
    }
  }

  /** Bernoulli's inequality: compounding at a non-negative rate grows at least linearly. */
  lemma {:induction false} PowBernoulli(r: real, n: nat)
    requires r >= 0.0
    ensures Pow(1.0 + r, n) >= 1.0 + (n as real) * r
  {
    if n > 0 {
      PowBernoulli(r, n - 1);
      var q := Pow(1.0 + r, n - 1);
      var m := (n - 1) as real;
      assert (1.0 + r) * q >= (1.0 + r) * (1.0 + m * r) by {
        MulLeftMonotone(1.0 + r, 1.0 + m * r, q);
      }
      assert (1.0 + r) * (1.0 + m * r) == 1.0 + (m + 1.0) * r + m * (r * r);
      assert m * (r * r) >= 0.0;
    }
  }

  lemma MulLeftMonotone(c: real, a: real, b: real)
    requires c >= 0.0 && a <= b
    ensures c * a <= c * b
  {
  }

  /** The growth factor over at least one period at a positive rate exceeds one,
      so the annuity formula never divides by zero. */
  lemma GrowthExceedsOne(r: real, n: nat)
    requires r > 0.0 && n >= 1
    ensures Pow(1.0 + r, n) - 1.0 >= (n as real) * r > 0.0
  {
    PowBernoulli(r, n);
    assert (n as real) * r >= 1.0 * r by {
      MulRightMonotone(1.0, n as real, r);
    }
  }

  lemma MulRightMonotone(a: real, b: real, c: real)
    requires a <= b && c >= 0.0
    ensures a * c <= b * c
  {
  }

  lemma {:induction false} PowMonotoneBase(a: real, b: real, n: nat)
    requires 0.0 < a <= b
    ensures Pow(a, n) <= Pow(b, n)
  {
    if n > 0 {
      PowMonotoneBase(a, b, n - 1);
      PowPositive(a, n - 1);
      MulRightMonotone(a, b, Pow(a, n - 1));
      MulLeftMonotone(b, Pow(a, n - 1), Pow(b, n - 1));
    }
  }

  /** The periodic payment of the annuity formula:
      principal * (r * (1 + r)^n) / ((1 + r)^n - 1). */
  function Annuity(principal: real, r: real, n: nat): real
    requires r > 0.0 && n >= 1
  {
    var q := Pow(1.0 + r, n);
    GrowthExceedsOne(r, n);
    principal * (r * q) / (q - 1.0)
  }

  /** The balance still owed after `k` payments of `payment`, each period first
      adding interest at rate `r` to the balance and then taking the payment off. */
  function Balance(principal: real, r: real, payment: real, k: nat): real
  {
    if k == 0 then principal else Balance(principal, r, payment, k - 1) * (1.0 + r) - payment
  }

  lemma {:induction false} BalanceClosedForm(principal: real, r: real, payment: real, k: nat)
    ensures r * Balance(principal, r, payment, k)
         == principal * r * Pow(1.0 + r, k) - payment * (Pow(1.0 + r, k) - 1.0)
  {
    if k > 0 {
      BalanceClosedForm(principal, r, payment, k - 1);
      BalanceStep(principal, r, payment, Balance(principal, r, payment, k - 1), Pow(1.0 + r, k - 1));
    }
  }

  /** One period of BalanceClosedForm, with the recursive values as plain numbers. */
  lemma BalanceStep(principal: real, r: real, payment: real, b: real, q: real)
    requires r * b == principal * r * q - payment * (q - 1.0)
    ensures r * (b * (1.0 + r) - payment)
         == principal * r * ((1.0 + r) * q) - payment * ((1.0 + r) * q - 1.0)
  {
    var s := 1.0 + r;
    calc {
      r * (b * s - payment);
    ==
      s * (r * b) - r * payment;
    ==
      s * (principal * r * q - payment * (q - 1.0)) - r * payment;
    ==
      s * (principal * r * q) - s * (payment * (q - 1.0)) - r * payment;
    ==
      principal * r * (s * q) - payment * (s * q - s) - r * payment;
    ==
      principal * r * (s * q) - payment * (s * q - s + r);
    ==
      principal * r * (s * q) - payment * (s * q - 1.0);
    }
  }

  /** The annuity payment repays the loan exactly at the last period. */
  lemma AnnuityRepays(principal: real, r: real, n: nat)
    requires r > 0.0 && n >= 1
    ensures Balance(principal, r, Annuity(principal, r, n), n) == 0.0
  {
    var q := Pow(1.0 + r, n);
    AnnuityTimesGrowth(principal, r, n);
    var a := Annuity(principal, r, n);
    BalanceClosedForm(principal, r, a, n);
    assert r * Balance(principal, r, a, n) == 0.0;
  }

  /** Without interest, each of `n` equal payments of principal / n brings the
      balance down by the same amount. */
  lemma {:induction false} StraightLineBalance(principal: real, payment: real, k: nat)
    ensures Balance(principal, 0.0, payment, k) == principal - (k as real) * payment
  {
    if k > 0 {
      StraightLineBalance(principal, payment, k - 1);
    }
  }

  /** How much one unit paid at the end of each of the next `n` periods is
      worth today at rate `r`: the sum of 1 / (1 + r)^j for j = 1..n. */
  function DiscountSum(r: real, n: nat): real
    requires r >= 0.0
  {
    if n == 0 then 0.0
    else
      PowPositive(1.0 + r, n);
      DiscountSum(r, n - 1) + 1.0 / Pow(1.0 + r, n)
  }

  lemma {:induction false} DiscountSumPositive(r: real, n: nat)
    requires r >= 0.0 && n >= 1
    ensures DiscountSum(r, n) > 0.0
  {
    PowPositive(1.0 + r, n);
    if n > 1 {
      DiscountSumPositive(r, n - 1);
    }
  }

  lemma {:induction false} DiscountSumAtZeroRate(n: nat)
    ensures DiscountSum(0.0, n) == n as real
  {
    if n > 0 {
      DiscountSumAtZeroRate(n - 1);
      assert Pow(1.0, n) == 1.0 by { PowOfOne(n); }
    }
  }

  lemma {:induction false} PowOfOne(n: nat)
    ensures Pow(1.0, n) == 1.0
  {
    if n > 0 {
      PowOfOne(n - 1);
    }
  }

  lemma {:induction false} DiscountSumClosedForm(r: real, n: nat)
    requires r >= 0.0
    ensures r * Pow(1.0 + r, n) * DiscountSum(r, n) == Pow(1.0 + r, n) - 1.0
  {
    if n > 0 {
      DiscountSumClosedForm(r, n - 1);
      PowPositive(1.0 + r, n);
      var q, d, qn := Pow(1.0 + r, n - 1), DiscountSum(r, n - 1), Pow(1.0 + r, n);
      assert qn == (1.0 + r) * q;
      assert DiscountSum(r, n) == d + 1.0 / qn;
      DiscountStep(r, q, d, qn);
    }
  }

  /** One period of DiscountSumClosedForm, with the recursive values as plain numbers. */
  lemma DiscountStep(r: real, q: real, d: real, qn: real)
    requires qn == (1.0 + r) * q && qn > 0.0
    requires r * q * d == q - 1.0
    ensures r * qn * (d + 1.0 / qn) == qn - 1.0
  {
    assert qn * (1.0 / qn) == 1.0;
    calc {
      r * qn * (d + 1.0 / qn);
    ==
      r * qn * d + r * (qn * (1.0 / qn));
    ==
      (1.0 + r) * (r * q * d) + r;
    ==
      (1.0 + r) * (q - 1.0) + r;
    ==
      qn - 1.0;
    }
  }

  /** A higher rate makes future payments worth less today. */
  lemma {:induction false} DiscountSumAntitone(r1: real, r2: real, n: nat)
    requires 0.0 <= r1 <= r2
    ensures DiscountSum(r2, n) <= DiscountSum(r1, n)
  {
    if n > 0 {
      DiscountSumAntitone(r1, r2, n - 1);
      PowPositive(1.0 + r1, n);
      PowMonotoneBase(1.0 + r1, 1.0 + r2, n);
      ReciprocalAntitone(Pow(1.0 + r1, n), Pow(1.0 + r2, n));
    }
  }

  lemma ReciprocalAntitone(a: real, b: real)
    requires 0.0 < a <= b
    ensures 1.0 / b <= 1.0 / a
  {
    assert 1.0 / a - 1.0 / b == (b - a) / (a * b);
  }

  lemma QuotientAntitone(p: real, d1: real, d2: real)
    requires p >= 0.0 && 0.0 < d2 <= d1
    ensures p / d1 <= p / d2
  {
    ReciprocalAntitone(d2, d1);
    MulLeftMonotone(p, 1.0 / d1, 1.0 / d2);
  }

  /** The annuity payment is the one whose present value over the `n` periods
      is the principal. */
  lemma AnnuityPresentValue(principal: real, r: real, n: nat)
    requires r > 0.0 && n >= 1
    ensures Annuity(principal, r, n) * DiscountSum(r, n) == principal
  {
    GrowthExceedsOne(r, n);
    DiscountSumClosedForm(r, n);
    AnnuityTimesGrowth(principal, r, n);
    PresentValueAlgebra(Annuity(principal, r, n), principal, r, Pow(1.0 + r, n), DiscountSum(r, n));
  }

  /** The annuity formula with its division multiplied out. */
  lemma AnnuityTimesGrowth(principal: real, r: real, n: nat)
    requires r > 0.0 && n >= 1
    ensures Pow(1.0 + r, n) - 1.0 > 0.0
    ensures Annuity(principal, r, n) * (Pow(1.0 + r, n) - 1.0) == principal * (r * Pow(1.0 + r, n))
  {
    GrowthExceedsOne(r, n);
    DivTimes(principal * (r * Pow(1.0 + r, n)), Pow(1.0 + r, n) - 1.0);
  }

  lemma PresentValueAlgebra(a: real, p: real, r: real, q: real, d: real)
    requires q - 1.0 != 0.0
    requires a * (q - 1.0) == p * (r * q)
    requires r * q * d == q - 1.0
    ensures a * d == p
  {
    calc {
      (a * d) * (q - 1.0);
    ==
      d * (a * (q - 1.0));
    ==
      d * (p * (r * q));
    ==
      p * (r * q * d);
    ==
      p * (q - 1.0);
    }
    MulCancel(a * d, p, q - 1.0);
  }

  lemma DivTimes(x: real, c: real)
    requires c != 0.0
    ensures (x / c) * c == x
  {
  }

  lemma MulCancel(x: real, y: real, c: real)
    requires c != 0.0 && x * c == y * c
    ensures x == y
  {
    assert (x - y) * c == 0.0;
  }

  /** `Number(x.toFixed(2))` over exact reals: whole cents, the magnitude
      rounded to the nearest cent with ties going up, the sign kept. */
  function Round2(x: real): (y: real)
    ensures -0.005 <= y - x <= 0.005
    ensures (100.0 * y).Floor as real == 100.0 * y
    ensures x >= 0.0 ==> y >= 0.0
  {
    if x >= 0.0 then
      RoundMagnitude(x);
      ((100.0 * x + 0.5).Floor as real) / 100.0
    else
      RoundMagnitude(-x);
      -(((100.0 * -x + 0.5).Floor as real) / 100.0)
  }

  lemma RoundMagnitude(m: real)
    requires m >= 0.0
    ensures var y := ((100.0 * m + 0.5).Floor as real) / 100.0;
      && -0.005 <= y - m <= 0.005
      && (100.0 * y).Floor as real == 100.0 * y
      && (100.0 * -y).Floor as real == 100.0 * -y
      && y >= 0.0
  {
    var k := (100.0 * m + 0.5).Floor;
    var y := (k as real) / 100.0;
    assert 100.0 * y == k as real;
    assert 100.0 * -y == (-k) as real;
    FloorOfWhole(k);
    FloorOfWhole(-k);
  }

  lemma FloorOfWhole(k: int)
    ensures (k as real).Floor == k
  {
  }

  lemma Round2Monotone(x: real, y: real)
    requires 0.0 <= x <= y
    ensures Round2(x) <= Round2(y)
  {
    assert (100.0 * x + 0.5).Floor <= (100.0 * y + 0.5).Floor;
  }

  /** The rescale applied to an accelerated-biweekly payment: (12 / 24) * (26 / 12). */
  function Accelerate(payment: real, accelerated: bool): (r: real)
    ensures r == if accelerated then payment * (26.0 / 24.0) else payment
  {
    if accelerated then payment * (12.0 / 24.0) * (26.0 / 12.0) else payment
  }

  function PeriodicRate(annualRate: real, paymentsPerYear: nat): real
    requires paymentsPerYear >= 1
  {
    (annualRate / 100.0) / (paymentsPerYear as real)
  }

  lemma PeriodicRateSign(annualRate: real, paymentsPerYear: nat)
    requires paymentsPerYear >= 1 && annualRate >= 0.0
    ensures PeriodicRate(annualRate, paymentsPerYear) >= 0.0
    ensures PeriodicRate(annualRate, paymentsPerYear) == 0.0 <==> annualRate == 0.0
  {
    var p := paymentsPerYear as real;
    assert PeriodicRate(annualRate, paymentsPerYear) * p == annualRate / 100.0;
  }

  lemma PeriodicRateMonotone(a1: real, a2: real, paymentsPerYear: nat)
    requires paymentsPerYear >= 1 && a1 <= a2
    ensures PeriodicRate(a1, paymentsPerYear) <= PeriodicRate(a2, paymentsPerYear)
  {
    var p := paymentsPerYear as real;
    assert PeriodicRate(a1, paymentsPerYear) * p == a1 / 100.0;
    assert PeriodicRate(a2, paymentsPerYear) * p == a2 / 100.0;
    if PeriodicRate(a1, paymentsPerYear) > PeriodicRate(a2, paymentsPerYear) {
      MulRightMonotone(PeriodicRate(a2, paymentsPerYear), PeriodicRate(a1, paymentsPerYear), p);
    }
  }

  /** The value `payment` holds just before rounding; on the zero-rate path,
      the value returned. */
  function UnroundedPayment(principal: real, annualRate: real, years: nat, paymentsPerYear: nat,
                            accelerated: bool): real
    requires paymentsPerYear >= 1 && years >= 1 && annualRate >= 0.0
  {
    var n := paymentsPerYear * years;
    var r := PeriodicRate(annualRate, paymentsPerYear);
    PeriodicRateSign(annualRate, paymentsPerYear);
    if r == 0.0 then principal / (n as real)
    else Accelerate(Annuity(principal, r, n), accelerated)
  }

  /** The payment `calculatePaymentAmount` returns once it knows the payments
      per year: the zero-rate quotient as it is, every other payment rounded
      to cents. */
  function PaymentFor(principal: real, annualRate: real, years: nat, paymentsPerYear: nat,
                      accelerated: bool): real
    requires paymentsPerYear >= 1 && years >= 1 && annualRate >= 0.0
  {
    PeriodicRateSign(annualRate, paymentsPerYear);
    var u := UnroundedPayment(principal, annualRate, years, paymentsPerYear, accelerated);
    if PeriodicRate(annualRate, paymentsPerYear) == 0.0 then u else Round2(u)
  }

  /** At a zero rate the payment is the principal spread evenly over all
      payments, unrounded; at a positive rate it is whole cents within half a
      cent of the unrounded payment. */
  lemma PaymentForRounding(principal: real, annualRate: real, years: nat, paymentsPerYear: nat,
                           accelerated: bool)
    requires paymentsPerYear >= 1 && years >= 1 && annualRate >= 0.0
    ensures var p := PaymentFor(principal, annualRate, years, paymentsPerYear, accelerated);
      && (annualRate == 0.0 ==> p == principal / ((paymentsPerYear * years) as real))
      && (annualRate > 0.0 ==>
            var u := UnroundedPayment(principal, annualRate, years, paymentsPerYear, accelerated);
            -0.005 <= p - u <= 0.005 && (100.0 * p).Floor as real == 100.0 * p)
  {
    PeriodicRateSign(annualRate, paymentsPerYear);
  }

  /** Without acceleration, the payment (before rounding) has the principal as
      its present value, on both the zero-rate and the annuity path. */
  lemma UnroundedPaymentPresentValue(principal: real, annualRate: real, years: nat, paymentsPerYear: nat)
    requires paymentsPerYear >= 1 && years >= 1 && annualRate >= 0.0
    ensures PeriodicRate(annualRate, paymentsPerYear) >= 0.0
    ensures UnroundedPayment(principal, annualRate, years, paymentsPerYear, false)
          * DiscountSum(PeriodicRate(annualRate, paymentsPerYear), paymentsPerYear * years) == principal
  {
    PeriodicRateSign(annualRate, paymentsPerYear);
    var n := paymentsPerYear * years;
    var r := PeriodicRate(annualRate, paymentsPerYear);
    if r == 0.0 {
      DiscountSumAtZeroRate(n);
    } else {
      AnnuityPresentValue(principal, r, n);
    }
  }

  /** Without acceleration, the payment (before rounding) leaves nothing owing
      after the last of the `paymentsPerYear * years` payments. */
  lemma UnroundedPaymentRepays(principal: real, annualRate: real, years: nat, paymentsPerYear: nat)
    requires paymentsPerYear >= 1 && years >= 1 && annualRate >= 0.0
    ensures Balance(principal, PeriodicRate(annualRate, paymentsPerYear),
                    UnroundedPayment(principal, annualRate, years, paymentsPerYear, false),
                    paymentsPerYear * years) == 0.0
  {
    PeriodicRateSign(annualRate, paymentsPerYear);
    var n := paymentsPerYear * years;
    var r := PeriodicRate(annualRate, paymentsPerYear);
    if r == 0.0 {
      StraightLineBalance(principal, principal / (n as real), n);
    } else {
      AnnuityRepays(principal, r, n);
    }
  }

  /** At a positive rate the accelerated-biweekly payment is the biweekly one
      scaled by 26 / 24 before rounding. */
  lemma AcceleratedIsScaledBiweekly(principal: real, annualRate: real, years: nat)
    requires years >= 1 && annualRate > 0.0
    ensures UnroundedPayment(principal, annualRate, years, 26, true)
         == UnroundedPayment(principal, annualRate, years, 26, false) * (26.0 / 24.0)
  {
    PeriodicRateSign(annualRate, 26);
  }

  /** At a zero rate the accelerated rescale is never reached: the accelerated
      payment is the plain one. */
  lemma ZeroRateIgnoresAcceleration(principal: real, years: nat, paymentsPerYear: nat)
    requires paymentsPerYear >= 1 && years >= 1
    ensures PaymentFor(principal, 0.0, years, paymentsPerYear, true)
         == PaymentFor(principal, 0.0, years, paymentsPerYear, false)
  {
  }

  /** A positive principal gives a positive payment before rounding, and a
      payment that is never negative after it. */
  lemma PaymentPositive(principal: real, annualRate: real, years: nat, paymentsPerYear: nat,
                        accelerated: bool)
    requires paymentsPerYear >= 1 && years >= 1 && annualRate >= 0.0 && principal > 0.0
    ensures UnroundedPayment(principal, annualRate, years, paymentsPerYear, accelerated) > 0.0
    ensures PaymentFor(principal, annualRate, years, paymentsPerYear, accelerated) >= 0.0
  {
    PeriodicRateSign(annualRate, paymentsPerYear);
    var n := paymentsPerYear * years;
    var r := PeriodicRate(annualRate, paymentsPerYear);
    if r > 0.0 {
      GrowthExceedsOne(r, n);
      PowPositive(1.0 + r, n);
      var q := Pow(1.0 + r, n);
      assert principal * (r * q) > 0.0;
      assert Annuity(principal, r, n) > 0.0;
    }
  }

  /** Without acceleration, the payment before rounding is the principal
      divided by the present value of one unit per period. */
  lemma PlainPaymentQuotient(principal: real, annualRate: real, years: nat, paymentsPerYear: nat)
    requires paymentsPerYear >= 1 && years >= 1 && annualRate >= 0.0
    ensures PeriodicRate(annualRate, paymentsPerYear) >= 0.0
    ensures DiscountSum(PeriodicRate(annualRate, paymentsPerYear), paymentsPerYear * years) > 0.0
    ensures UnroundedPayment(principal, annualRate, years, paymentsPerYear, false)
         == principal / DiscountSum(PeriodicRate(annualRate, paymentsPerYear), paymentsPerYear * years)
  {
    UnroundedPaymentPresentValue(principal, annualRate, years, paymentsPerYear);
    var r := PeriodicRate(annualRate, paymentsPerYear);
    var d := DiscountSum(r, paymentsPerYear * years);
    DiscountSumPositive(r, paymentsPerYear * years);
    var u := UnroundedPayment(principal, annualRate, years, paymentsPerYear, false);
    assert u * d == principal;
    assert u == (u * d) / d;
  }

  /** Before rounding, a higher interest rate never lowers the payment, across
      the zero-rate and the annuity paths alike. */
  lemma UnroundedPaymentMonotone(principal: real, a1: real, a2: real, years: nat, paymentsPerYear: nat,
                                 accelerated: bool)
    requires paymentsPerYear >= 1 && years >= 1 && 0.0 <= a1 <= a2 && principal >= 0.0
    ensures 0.0 <= UnroundedPayment(principal, a1, years, paymentsPerYear, accelerated)
    ensures UnroundedPayment(principal, a1, years, paymentsPerYear, accelerated)
         <= UnroundedPayment(principal, a2, years, paymentsPerYear, accelerated)
  {
    var n := paymentsPerYear * years;
    PeriodicRateSign(a1, paymentsPerYear);
    PeriodicRateSign(a2, paymentsPerYear);
    PeriodicRateMonotone(a1, a2, paymentsPerYear);
    PlainPaymentQuotient(principal, a1, years, paymentsPerYear);
    PlainPaymentQuotient(principal, a2, years, paymentsPerYear);
    var d1 := DiscountSum(PeriodicRate(a1, paymentsPerYear), n);
    var d2 := DiscountSum(PeriodicRate(a2, paymentsPerYear), n);
    DiscountSumAntitone(PeriodicRate(a1, paymentsPerYear), PeriodicRate(a2, paymentsPerYear), n);
    QuotientAntitone(principal, d1, d2);
    var v1 := UnroundedPayment(principal, a1, years, paymentsPerYear, false);
    var v2 := UnroundedPayment(principal, a2, years, paymentsPerYear, false);
    assert 0.0 <= v1 <= v2;
    if accelerated && a2 > 0.0 {
      MulRightMonotone(1.0, 26.0 / 24.0, v2);
      if a1 > 0.0 {
        MulRightMonotone(v1, v2, 26.0 / 24.0);
      }
    }
  }

  /** At positive rates a higher interest rate never lowers the rounded payment. */
  lemma PaymentMonotone(principal: real, a1: real, a2: real, years: nat, paymentsPerYear: nat,
                        accelerated: bool)
    requires paymentsPerYear >= 1 && years >= 1 && 0.0 < a1 <= a2 && principal >= 0.0
    ensures PaymentFor(principal, a1, years, paymentsPerYear, accelerated)
         <= PaymentFor(principal, a2, years, paymentsPerYear, accelerated)
  {
    PeriodicRateSign(a1, paymentsPerYear);
    PeriodicRateSign(a2, paymentsPerYear);
    UnroundedPaymentMonotone(principal, a1, a2, years, paymentsPerYear, accelerated);
    Round2Monotone(UnroundedPayment(principal, a1, years, paymentsPerYear, accelerated),
                   UnroundedPayment(principal, a2, years, paymentsPerYear, accelerated));
  }

  /** Above the zero rate the annuity never asks for more than the straight-line
      share plus one period's interest on the principal. */
  lemma AnnuityUpperBound(principal: real, r: real, n: nat)
    requires r > 0.0 && n >= 1 && principal >= 0.0
    ensures Annuity(principal, r, n) <= principal / (n as real) + principal * r
  {
    AnnuityTimesGrowth(principal, r, n);
    GrowthExceedsOne(r, n);
    UpperBoundAlgebra(Annuity(principal, r, n), principal, r, Pow(1.0 + r, n) - 1.0, n as real);
  }

  lemma UpperBoundAlgebra(a: real, p: real, r: real, g: real, m: real)
    requires p >= 0.0 && r > 0.0 && m >= 1.0 && g >= m * r
    requires a * g == p * (r * (g + 1.0))
    ensures a <= p / m + p * r
  {
    assert g > 0.0;
    assert a == p * r + (p * r) / g by {
      assert (a - p * r) * g == p * r;
    }
    QuotientAntitone(p * r, g, m * r);
    assert (p * r) / (m * r) == p / m;
  }

  /** The zero-rate payment is not rounded while every other one is, so a
      positive rate can come out cheaper than no interest at all: 400000 over
      25 years of monthly payments costs 1333.33 at 0.000001 percent and
      1333.333... at 0 percent. */
  lemma ZeroRateBreaksMonotonicity()
    ensures PaymentFor(400000.0, 0.000001, 25, 12, false) < PaymentFor(400000.0, 0.0, 25, 12, false)
  {
    var r := PeriodicRate(0.000001, 12);
    assert r == 0.000001 / 1200.0;
    PeriodicRateSign(0.000001, 12);
    var u := UnroundedPayment(400000.0, 0.000001, 25, 12, false);
    assert u == Annuity(400000.0, r, 300);
    AnnuityUpperBound(400000.0, r, 300);
    UnroundedPaymentMonotone(400000.0, 0.0, 0.000001, 25, 12, false);
    assert UnroundedPayment(400000.0, 0.0, 25, 12, false) == 400000.0 / 300.0;
    assert 400000.0 / 300.0 <= u <= 400000.0 / 300.0 + 1.0 / 3000.0;
    assert 133333.0 <= 100.0 * u + 0.5 < 133334.0;
    assert (100.0 * u + 0.5).Floor == 133333;
    assert PaymentFor(400000.0, 0.000001, 25, 12, false) == 1333.33;
  }
}
