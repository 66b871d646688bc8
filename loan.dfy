/** Level monthly payment of a fixed-rate loan whose principal is given in
    man-yen (units of 10,000 yen), and the facts that make it the payment
    that fully amortizes the loan. All arithmetic is exact (real). */
module Loan {

  /** One man-yen in yen: principals and monthly costs are entered in man-yen. */
  const ManYen: real := 10000.0

  /** x raised to a natural power, as Python's `**` with an integer exponent. */
  function Pow(x: real, k: nat): real
  {
    if k == 0 then 1.0 else Pow(x, k - 1) * x
  }

  /** Monthly interest rate from an annual rate in percent. */
  function MonthlyRate(annualRate: real): real
  {
    annualRate / 100.0 / 12.0
  }

  /** Number of monthly payments in a term of whole years. */
  function NumPayments(years: int): int
  {
    years * 12
  }

  /** The inputs on which the payment formula never divides by zero: a
      positive term, and a growth factor (1+r)^n different from 1 whenever
      the zero-rate branch is not taken. */
  predicate PaymentDefined(annualRate: real, years: int)
  {
    years > 0 &&
    (MonthlyRate(annualRate) != 0.0 ==> Pow(1.0 + MonthlyRate(annualRate), NumPayments(years)) != 1.0)
  }

  /** The level monthly payment, in yen, for a principal in man-yen: the
      zero-rate branch divides the principal evenly over the n payments,
      the other branch is the annuity formula. */
  function MonthlyPayment(principal: real, annualRate: real, years: int): real
    requires PaymentDefined(annualRate, years)
  {
    var r := MonthlyRate(annualRate);
    var n := NumPayments(years);
    if r == 0.0 then
      principal * ManYen / (n as real)
    else
      principal * ManYen * r * Pow(1.0 + r, n) / (Pow(1.0 + r, n) - 1.0)
  }

  /** What the payment p is: at rate zero the n payments add up to the
      principal; otherwise p satisfies the annuity identity
      p * ((1+r)^n - 1) == B * r * (1+r)^n. */
  lemma PaymentIdentity(principal: real, annualRate: real, years: int)
    requires PaymentDefined(annualRate, years)
    ensures MonthlyRate(annualRate) == 0.0 ==>
              MonthlyPayment(principal, annualRate, years) * (NumPayments(years) as real) == principal * ManYen
    ensures MonthlyRate(annualRate) != 0.0 ==>
              MonthlyPayment(principal, annualRate, years) * (Pow(1.0 + MonthlyRate(annualRate), NumPayments(years)) - 1.0)
              == principal * ManYen * MonthlyRate(annualRate) * Pow(1.0 + MonthlyRate(annualRate), NumPayments(years))
  {
  }

  /** 1^k == 1. */
  lemma {:induction false} PowOne(k: nat)
    ensures Pow(1.0, k) == 1.0
  {
    if k > 0 {
      PowOne(k - 1);
    }
  }

  /** Outstanding balance after k monthly payments of p on a balance b that
      accrues interest at the monthly rate r before each payment. */
  function Balance(b: real, r: real, p: real, k: nat): real
  {
    if k == 0 then b else Balance(b, r, p, k - 1) * (1.0 + r) - p
  }

  /** One payment period in the scaled closed form: if r*q == b*r*x - p*(x-1)
      after k - 1 payments, then the same holds for the next balance
      q*(1+r) - p and the next power x*(1+r). */
  lemma BalanceStepAlgebra(b: real, r: real, p: real, x: real, q: real, x': real, q': real)
    requires r * q == b * r * x - p * (x - 1.0)
    requires x' == x * (1.0 + r) && q' == q * (1.0 + r) - p
    ensures r * q' == b * r * x' - p * (x' - 1.0)
  {
    assert r * q' == (r * q) * (1.0 + r) - r * p;
  }

  /** The scaled closed form carries over from k - 1 payments to k payments. */
  lemma BalanceStep(b: real, r: real, p: real, k: nat)
    requires k >= 1
    requires r * Balance(b, r, p, k - 1) == b * r * Pow(1.0 + r, k - 1) - p * (Pow(1.0 + r, k - 1) - 1.0)
    ensures r * Balance(b, r, p, k) == b * r * Pow(1.0 + r, k) - p * (Pow(1.0 + r, k) - 1.0)
  {
    BalanceStepAlgebra(b, r, p, Pow(1.0 + r, k - 1), Balance(b, r, p, k - 1),
                       Pow(1.0 + r, k), Balance(b, r, p, k));
  }

  /** The balance after k payments, scaled by the rate: the grown principal
      b*(1+r)^k less the payments grown from their own months, whose sum
      is p*((1+r)^k - 1)/r. */
  lemma {:induction false} BalanceClosedForm(b: real, r: real, p: real, k: nat)
    ensures r * Balance(b, r, p, k) == b * r * Pow(1.0 + r, k) - p * (Pow(1.0 + r, k) - 1.0)
  {
    if k == 0 {
      assert Balance(b, r, p, 0) == b;
      assert Pow(1.0 + r, 0) == 1.0;
    } else {
      BalanceClosedForm(b, r, p, k - 1);
      BalanceStep(b, r, p, k);
    }
  }

  /** Without interest each payment takes p off the balance. */
  lemma {:induction false} BalanceWithoutInterest(b: real, p: real, k: nat)
    ensures Balance(b, 0.0, p, k) == b - (k as real) * p
  {
    if k > 0 {
      BalanceWithoutInterest(b, p, k - 1);
    }
  }

  /** At a non-zero rate, any payment meeting the annuity identity leaves
      a zero balance after the n payments. */
  lemma PaidOffWithInterest(b: real, r: real, p: real, n: nat)
    requires r != 0.0 && p * (Pow(1.0 + r, n) - 1.0) == b * r * Pow(1.0 + r, n)
    ensures Balance(b, r, p, n) == 0.0
  {
    BalanceClosedForm(b, r, p, n);
  }

  /** At rate zero, n payments adding up to the principal leave a zero balance. */
  lemma PaidOffWithoutInterest(b: real, p: real, n: nat)
    requires p * (n as real) == b
    ensures Balance(b, 0.0, p, n) == 0.0
  {
    BalanceWithoutInterest(b, p, n);
  }

  /** The n = years*12 level payments pay the loan off exactly: the balance
      after the last payment is zero, at a zero and at a non-zero rate. */
  lemma FullyAmortizes(principal: real, annualRate: real, years: int)
    requires PaymentDefined(annualRate, years)
    ensures Balance(principal * ManYen, MonthlyRate(annualRate),
                    MonthlyPayment(principal, annualRate, years), NumPayments(years)) == 0.0
  {
    var r, n := MonthlyRate(annualRate), NumPayments(years);
    PaymentIdentity(principal, annualRate, years);
    if r == 0.0 {
      PaidOffWithoutInterest(principal * ManYen, MonthlyPayment(principal, annualRate, years), n);
    } else {
      PaidOffWithInterest(principal * ManYen, r, MonthlyPayment(principal, annualRate, years), n);
    }
  }

  /** A base above one stays above one under positive powers. */
  lemma {:induction false} PowAboveOne(x: real, k: nat)
    requires x > 1.0 && k >= 1
    ensures Pow(x, k) > 1.0
  {
    if k > 1 {
      PowAboveOne(x, k - 1);
      assert Pow(x, k - 1) * x > 1.0 * x;
    }
  }

  /** A base strictly between zero and one stays there under positive powers. */
  lemma {:induction false} PowBelowOne(x: real, k: nat)
    requires 0.0 < x < 1.0 && k >= 1
    ensures 0.0 < Pow(x, k) < 1.0
  {
    if k > 1 {
      PowBelowOne(x, k - 1);
      assert Pow(x, k - 1) * x < 1.0 * x;
    }
  }

  /** Every annual rate above -1200 % (so that 1 + r > 0) is safe for every
      positive term: the division by zero is only reachable below that. */
  lemma PaymentDefinedAboveMinus1200(annualRate: real, years: int)
    requires years > 0 && annualRate > -1200.0
    ensures PaymentDefined(annualRate, years)
  {
    var r := MonthlyRate(annualRate);
    if r > 0.0 {
      PowAboveOne(1.0 + r, NumPayments(years));
    } else if r < 0.0 {
      PowBelowOne(1.0 + r, NumPayments(years));
    }
  }

  /** (-1)^(2m) == 1. */
  lemma {:induction false} PowMinusOneEven(m: nat)
    ensures Pow(-1.0, 2 * m) == 1.0
  {
    if m > 0 {
      PowMinusOneEven(m - 1);
      assert Pow(-1.0, 2 * m) == Pow(-1.0, 2 * (m - 1)) * -1.0 * -1.0;
    }
  }

  /** At an annual rate of -2400 % the growth factor is -1 and n is even,
      so the general formula would divide by zero: the guard on the rate
      alone does not protect every input. */
  lemma {:induction false} UndefinedAtMinus2400(years: int)
    requires years > 0
    ensures !PaymentDefined(-2400.0, years)
  {
    assert 1.0 + MonthlyRate(-2400.0) == -1.0;
    assert NumPayments(years) == 2 * (6 * years);
    PowMinusOneEven(6 * years);
  }

  /** A positive principal at a rate above -1200 % gives a positive payment. */
  lemma PaymentPositive(principal: real, annualRate: real, years: int)
    requires years > 0 && annualRate > -1200.0 && principal > 0.0
    ensures PaymentDefined(annualRate, years)
    ensures MonthlyPayment(principal, annualRate, years) > 0.0
  {
    PaymentDefinedAboveMinus1200(annualRate, years);
    var r := MonthlyRate(annualRate);
    var n := NumPayments(years);
    var b := principal * ManYen;
    var p := MonthlyPayment(principal, annualRate, years);
    PaymentIdentity(principal, annualRate, years);
    if r > 0.0 {
      PowAboveOne(1.0 + r, n);
      var x := Pow(1.0 + r, n);
      assert b * r * x > 0.0;
      assert p * (x - 1.0) > 0.0;
    } else if r < 0.0 {
      PowBelowOne(1.0 + r, n);
      var x := Pow(1.0 + r, n);
      assert b * r < 0.0;
      assert b * r * x < 0.0;
      assert x - 1.0 < 0.0;
      assert p * (x - 1.0) == b * r * x;
      assert p * (x - 1.0) < 0.0;
    }
  }
}
