/** Closed forms of the sum of the monthly figures of years 1..n of each
    option (one per-month figure per year, as the running totals add them):
    how many loan payments and tax credits fall inside the horizon, that
    the repair share is counted at most once, and the geometric growth of
    the apartment's inflated recurring costs. */
module Totals {
  import opened Loan
  import opened Cumulative
  import opened Projection

  /** 1 + x + ... + x^(n-1). */
  function GeomSum(x: real, n: nat): real
  {
    if n == 0 then 0.0 else GeomSum(x, n - 1) + Pow(x, n - 1)
  }

  /** One more term in the closed form: from g*r == q-1 for the sum g of
      the first terms and the power q, to the same for g + q and q*(1+r). */
  lemma GeomSumStepAlgebra(r: real, g: real, q: real, g': real, q': real)
    requires g * r == q - 1.0
    requires g' == g + q && q' == q * (1.0 + r)
    ensures g' * r == q' - 1.0
  {
    assert g' * r == g * r + q * r;
  }

  /** The geometric sum of the growth factor 1 + r in closed form:
      1 + (1+r) + ... + (1+r)^(n-1) == ((1+r)^n - 1) / r. */
  lemma {:induction false} GeomSumClosedForm(r: real, n: nat)
    ensures GeomSum(1.0 + r, n) * r == Pow(1.0 + r, n) - 1.0
  {
    if n > 0 {
      GeomSumClosedForm(r, n - 1);
      GeomSumStepAlgebra(r, GeomSum(1.0 + r, n - 1), Pow(1.0 + r, n - 1), GeomSum(1.0 + r, n), Pow(1.0 + r, n));
    }
  }

  /** Without growth the geometric sum counts its terms. */
  lemma {:induction false} GeomSumOfOne(n: nat)
    ensures GeomSum(1.0, n) == n as real
  {
    if n > 0 {
      GeomSumOfOne(n - 1);
      PowOne(n - 1);
    }
  }

  /** How many of the years 1..n satisfy y <= limit. */
  function YearsWithin(limit: int, n: nat): nat
  {
    if limit <= 0 then 0 else if limit >= n then n else limit
  }

  /** One more year counts once more exactly when it is inside the limit. */
  lemma YearsWithinStep(limit: int, n: nat)
    requires n >= 1
    ensures YearsWithin(limit, n) == YearsWithin(limit, n - 1) + (if n <= limit then 1 else 0)
  {
  }

  /** Total over years 1..n of an amount v counted in the years y <= limit. */
  function WindowTotal(v: real, limit: int, n: nat): real
  {
    if n == 0 then 0.0 else WindowTotal(v, limit, n - 1) + LoanPart(v, limit, n)
  }

  /** Total over years 1..n of an amount that starts at v and grows by the
      factor x a year. */
  function GrowingTotal(v: real, x: real, n: nat): real
  {
    if n == 0 then 0.0 else GrowingTotal(v, x, n - 1) + v * Pow(x, n - 1)
  }

  /** Total over years 1..n of an amount charged only in the year `year`. */
  function OneOffTotal(v: real, year: int, n: nat): real
  {
    if n == 0 then 0.0 else OneOffTotal(v, year, n - 1) + (if n == year then v else 0.0)
  }

  /** An amount counted in the years y <= limit is counted min(n, limit) times. */
  lemma {:induction false} WindowTotalClosedForm(v: real, limit: int, n: nat)
    ensures WindowTotal(v, limit, n) == v * (YearsWithin(limit, n) as real)
  {
    if n > 0 {
      WindowTotalClosedForm(v, limit, n - 1);
      YearsWithinStep(limit, n);
      if n <= limit {
        assert YearsWithin(limit, n) as real == (YearsWithin(limit, n - 1) as real) + 1.0;
      }
    }
  }

  /** A growing amount totals v * (1 + x + ... + x^(n-1)). */
  lemma {:induction false} GrowingTotalClosedForm(v: real, x: real, n: nat)
    ensures GrowingTotal(v, x, n) == v * GeomSum(x, n)
  {
    if n > 0 {
      GrowingTotalClosedForm(v, x, n - 1);
      assert v * GeomSum(x, n) == v * GeomSum(x, n - 1) + v * Pow(x, n - 1);
    }
  }

  /** A one-off amount is charged once if its year lies in 1..n, and never otherwise. */
  lemma {:induction false} OneOffTotalClosedForm(v: real, year: int, n: nat)
    ensures OneOffTotal(v, year, n) == if 1 <= year <= n then v else 0.0
  {
    if n > 0 {
      OneOffTotalClosedForm(v, year, n - 1);
    }
  }

  /** The shape shared by both options' yearly costs: a loan payment p in
      the years y <= loanYears, a recurring cost growing by the factor x a
      year, a one-off amount in the year oneOffYear, and a credit in the
      years y <= creditYears. */
  function YearCost(p: real, loanYears: int, recurring: real, x: real,
                    oneOff: real, oneOffYear: int, credit: real, creditYears: int, y: int): real
    requires y >= 1
  {
    LoanPart(p, loanYears, y) + recurring * Pow(x, y - 1)
    + (if y == oneOffYear then oneOff else 0.0) - LoanPart(credit, creditYears, y)
  }

  /** The total over years 1..n of costs of that shape, part by part. */
  function PartsTotal(p: real, loanYears: int, recurring: real, x: real,
                      oneOff: real, oneOffYear: int, credit: real, creditYears: int, n: nat): real
  {
    WindowTotal(p, loanYears, n) + GrowingTotal(recurring, x, n)
    + OneOffTotal(oneOff, oneOffYear, n) - WindowTotal(credit, creditYears, n)
  }

  /** The total of a list of such yearly costs over years 1..n splits into
      the totals of its four parts. */
  lemma {:induction false} SumOfYearCosts(s: seq<real>, p: real, loanYears: int, recurring: real, x: real,
                                          oneOff: real, oneOffYear: int, credit: real, creditYears: int)
    requires forall i :: 0 <= i < |s| ==>
               s[i] == YearCost(p, loanYears, recurring, x, oneOff, oneOffYear, credit, creditYears, i + 1)
    ensures Sum(s) == PartsTotal(p, loanYears, recurring, x, oneOff, oneOffYear, credit, creditYears, |s|)
  {
    var n := |s|;
    if n > 0 {
      var t := s[..n - 1];
      assert s == t + [s[n - 1]];
      SumOfYearCosts(t, p, loanYears, recurring, x, oneOff, oneOffYear, credit, creditYears);
    }
  }

  /** Closed form of the total over years 1..n of costs of that shape. */
  function ClosedTotal(p: real, loanYears: int, recurring: real, x: real,
                       oneOff: real, oneOffYear: int, credit: real, creditYears: int, n: nat): real
  {
    p * (YearsWithin(loanYears, n) as real)
    + recurring * GeomSum(x, n)
    + (if 1 <= oneOffYear <= n then oneOff else 0.0)
    - credit * (YearsWithin(creditYears, n) as real)
  }

  /** The part-by-part total in closed form: the loan payment
      min(n, loanYears) times, the growing cost times 1 + x + ... + x^(n-1),
      the one-off amount once if its year lies in 1..n and never otherwise,
      and the credit min(n, creditYears) times. */
  lemma PartsTotalClosedForm(p: real, loanYears: int, recurring: real, x: real,
                             oneOff: real, oneOffYear: int, credit: real, creditYears: int, n: nat)
    ensures PartsTotal(p, loanYears, recurring, x, oneOff, oneOffYear, credit, creditYears, n)
            == ClosedTotal(p, loanYears, recurring, x, oneOff, oneOffYear, credit, creditYears, n)
  {
    WindowTotalClosedForm(p, loanYears, n);
    WindowTotalClosedForm(credit, creditYears, n);
    GrowingTotalClosedForm(recurring, x, n);
    OneOffTotalClosedForm(oneOff, oneOffYear, n);
  }

  /** Without growth the recurring cost is simply counted once a year. */
  lemma ClosedTotalWithoutGrowth(p: real, loanYears: int, recurring: real,
                                 oneOff: real, oneOffYear: int, credit: real, creditYears: int, n: nat)
    ensures ClosedTotal(p, loanYears, recurring, 1.0, oneOff, oneOffYear, credit, creditYears, n)
            == p * (YearsWithin(loanYears, n) as real)
               + recurring * (n as real)
               + (if 1 <= oneOffYear <= n then oneOff else 0.0)
               - credit * (YearsWithin(creditYears, n) as real)
  {
    GeomSumOfOne(n);
  }

  /** Scaling a part-by-part total a + R*G by g, where G*g == P - 1. */
  lemma ScaledTotalAlgebra(g: real, t: real, a: real, R: real, G: real, P: real)
    requires t == a + R * G && G * g == P - 1.0
    ensures g * t == g * a + R * (P - 1.0)
  {
    assert g * t == g * a + R * (G * g);
  }

  /** With growth factor 1 + g and no one-off amount (the apartment's
      shape), the closed total scaled by g no longer needs the geometric
      sum: the recurring part becomes R*((1+g)^n - 1). */
  lemma ClosedTotalWithGrowth(p: real, loanYears: int, recurring: real, g: real,
                              credit: real, creditYears: int, n: nat)
    ensures g * ClosedTotal(p, loanYears, recurring, 1.0 + g, 0.0, 0, credit, creditYears, n)
            == g * (p * (YearsWithin(loanYears, n) as real) - credit * (YearsWithin(creditYears, n) as real))
               + recurring * (Pow(1.0 + g, n) - 1.0)
  {
    var a := p * (YearsWithin(loanYears, n) as real) - credit * (YearsWithin(creditYears, n) as real);
    GeomSumClosedForm(g, n);
    ScaledTotalAlgebra(g, ClosedTotal(p, loanYears, recurring, 1.0 + g, 0.0, 0, credit, creditYears, n),
                       a, recurring, GeomSum(1.0 + g, n), Pow(1.0 + g, n));
  }

  /** The apartment's sum over years 1..n, part by part: its loan payment,
      its four recurring costs times the geometric sum of the inflation
      factor, no one-off amount, its tax credit. With g = inflation/100,
      `ClosedTotalWithGrowth` gives the geometric part without the sum. */
  function AptClosedTotal(c: Config, n: nat): real
    requires ValidConfig(c)
  {
    ClosedTotal(AptPayment(c), c.aptLoanYears, AptRecurring(c), 1.0 + c.inflationRate / 100.0,
                0.0, 0, TaxCredit(c.aptLoan, c.aptCreditRate), c.aptCreditYears, n)
  }

  /** The house's sum over years 1..n, part by part: its loan payment, its
      net utility without growth, the repair share, its tax credit. */
  function IchijoClosedTotal(c: Config, n: nat): real
    requires ValidConfig(c)
  {
    ClosedTotal(IchijoPayment(c), c.ichijoLoanYears, IchijoNetUtility(c), 1.0,
                RepairAmount(c.ichijoRepairCost), c.ichijoRepairYear,
                TaxCredit(c.ichijoLoan, c.ichijoCreditRate), c.ichijoCreditYears, n)
  }

  /** Each apartment year has the shared shape, with no one-off amount. */
  lemma AptPrefixShape(c: Config, n: nat)
    requires ValidConfig(c)
    ensures forall i :: 0 <= i < n ==>
              AptPrefix(c, n)[i] == YearCost(AptPayment(c), c.aptLoanYears, AptRecurring(c),
                                             1.0 + c.inflationRate / 100.0, 0.0, 0,
                                             TaxCredit(c.aptLoan, c.aptCreditRate), c.aptCreditYears, i + 1)
  {
  }

  /** Each house year has the shared shape, with no growth and the repair
      as its one-off amount. */
  lemma IchijoPrefixShape(c: Config, n: nat)
    requires ValidConfig(c)
    ensures forall i :: 0 <= i < n ==>
              IchijoPrefix(c, n)[i] == YearCost(IchijoPayment(c), c.ichijoLoanYears, IchijoNetUtility(c), 1.0,
                                                RepairAmount(c.ichijoRepairCost), c.ichijoRepairYear,
                                                TaxCredit(c.ichijoLoan, c.ichijoCreditRate), c.ichijoCreditYears, i + 1)
  {
    forall i | 0 <= i < n {
      PowOne(i);
    }
  }

  /** The apartment's costs over years 1..n add up to its closed-form total. */
  lemma AptTotal(c: Config, n: nat)
    requires ValidConfig(c)
    ensures Sum(AptPrefix(c, n)) == AptClosedTotal(c, n)
  {
    AptPrefixShape(c, n);
    SumOfYearCosts(AptPrefix(c, n), AptPayment(c), c.aptLoanYears, AptRecurring(c),
                   1.0 + c.inflationRate / 100.0, 0.0, 0,
                   TaxCredit(c.aptLoan, c.aptCreditRate), c.aptCreditYears);
    PartsTotalClosedForm(AptPayment(c), c.aptLoanYears, AptRecurring(c),
                         1.0 + c.inflationRate / 100.0, 0.0, 0,
                         TaxCredit(c.aptLoan, c.aptCreditRate), c.aptCreditYears, n);
  }

  /** The house's costs over years 1..n add up to its closed-form total. */
  lemma IchijoTotal(c: Config, n: nat)
    requires ValidConfig(c)
    ensures Sum(IchijoPrefix(c, n)) == IchijoClosedTotal(c, n)
  {
    IchijoPrefixShape(c, n);
    SumOfYearCosts(IchijoPrefix(c, n), IchijoPayment(c), c.ichijoLoanYears, IchijoNetUtility(c), 1.0,
                   RepairAmount(c.ichijoRepairCost), c.ichijoRepairYear,
                   TaxCredit(c.ichijoLoan, c.ichijoCreditRate), c.ichijoCreditYears);
    PartsTotalClosedForm(IchijoPayment(c), c.ichijoLoanYears, IchijoNetUtility(c), 1.0,
                         RepairAmount(c.ichijoRepairCost), c.ichijoRepairYear,
                         TaxCredit(c.ichijoLoan, c.ichijoCreditRate), c.ichijoCreditYears, n);
  }

  /** The last running total of each option, as the projection reports it,
      is its closed-form total over the whole horizon. */
  lemma FinalCumulative(c: Config)
    requires ValidConfig(c) && Horizon(c) >= 1
    ensures CumSum(AptPrefix(c, Horizon(c)))[Horizon(c) - 1] == AptClosedTotal(c, Horizon(c))
    ensures CumSum(IchijoPrefix(c, Horizon(c)))[Horizon(c) - 1] == IchijoClosedTotal(c, Horizon(c))
  {
    CumSumLast(AptPrefix(c, Horizon(c)));
    CumSumLast(IchijoPrefix(c, Horizon(c)));
    AptTotal(c, Horizon(c));
    IchijoTotal(c, Horizon(c));
  }
}
