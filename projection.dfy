/** The year-by-year monthly cost of the two housing options, a
    condominium ("apartment") and a detached house built by Ichijo, over the
    comparison horizon. Each entry of a cost list is the cost per month in
    yen during one year; all entered amounts are in man-yen. */
module Projection {
  import opened Loan
  import opened Cumulative

  /** Every value the sidebar supplies. Year counts are whole numbers;
      amounts are man-yen (per month for the recurring ones); rates are
      percent per year. */
  datatype Config = Config(
    years: int,               // comparison horizon
    // apartment
    aptLoan: real,            // outstanding loan
    aptLoanYears: int,        // remaining loan term
    aptLoanRate: real,
    aptManagementFee: real,   // per month
    aptRepairReserve: real,   // per month
    aptParking: real,         // per month
    aptUtility: real,         // per month
    aptCreditYears: int,      // mortgage tax-credit window
    aptCreditRate: real,      // credited percent of the loan per year
    // detached house
    ichijoLoan: real,
    ichijoLoanYears: int,
    ichijoLoanRate: real,
    ichijoUtility: real,      // per month
    ichijoSolar: real,        // solar sale income per month
    ichijoRepairYear: int,    // the one year with the scheduled repair
    ichijoRepairCost: real,   // whole repair cost
    ichijoCreditYears: int,
    ichijoCreditRate: real,
    // shared
    inflationRate: real
  )

  /** Both loan payments can be computed without dividing by zero. */
  predicate ValidConfig(c: Config)
  {
    PaymentDefined(c.aptLoanRate, c.aptLoanYears) &&
    PaymentDefined(c.ichijoLoanRate, c.ichijoLoanYears)
  }

  /** Number of years projected: `range(1, years + 1)` is empty when years < 1. */
  function Horizon(c: Config): nat
  {
    if c.years > 0 then c.years else 0
  }

  /** Inflation multiplier of year y: (1 + inflation)^(y - 1). */
  function Inflator(inflationRate: real, y: int): real
    requires y >= 1
  {
    Pow(1.0 + inflationRate / 100.0, y - 1)
  }

  /** Loan payment counted in year y: the payment while the loan runs. */
  function LoanPart(payment: real, loanYears: int, y: int): real
  {
    if y <= loanYears then payment else 0.0
  }

  /** Monthly mortgage tax credit: a fixed percent of the original loan,
      spread over twelve months. */
  function TaxCredit(loan: real, creditRate: real): real
  {
    loan * ManYen * creditRate / 100.0 / 12.0
  }

  /** Tax credit counted in year y: the credit inside the window 1..creditYears. */
  function CreditPart(loan: real, creditRate: real, creditYears: int, y: int): real
  {
    if y <= creditYears then TaxCredit(loan, creditRate) else 0.0
  }

  /** Monthly share of the repair cost in the repair year. */
  function RepairAmount(cost: real): real
  {
    cost * ManYen / 12.0
  }

  /** Repair share counted in year y: only in the scheduled year. */
  function RepairPart(cost: real, repairYear: int, y: int): real
  {
    if y == repairYear then RepairAmount(cost) else 0.0
  }

  function AptPayment(c: Config): real
    requires ValidConfig(c)
  {
    MonthlyPayment(c.aptLoan, c.aptLoanRate, c.aptLoanYears)
  }

  function IchijoPayment(c: Config): real
    requires ValidConfig(c)
  {
    MonthlyPayment(c.ichijoLoan, c.ichijoLoanRate, c.ichijoLoanYears)
  }

  /** The apartment's four recurring monthly costs in yen, before inflation. */
  function AptRecurring(c: Config): real
  {
    (c.aptManagementFee + c.aptRepairReserve + c.aptParking + c.aptUtility) * ManYen
  }

  /** The house's utility cost net of solar income in yen, never inflated. */
  function IchijoNetUtility(c: Config): real
  {
    (c.ichijoUtility - c.ichijoSolar) * ManYen
  }

  /** Monthly cost of the apartment in year y. */
  function AptCost(c: Config, y: int): real
    requires ValidConfig(c) && y >= 1
  {
    LoanPart(AptPayment(c), c.aptLoanYears, y)
    + AptRecurring(c) * Inflator(c.inflationRate, y)
    - CreditPart(c.aptLoan, c.aptCreditRate, c.aptCreditYears, y)
  }

  /** Monthly cost of the detached house in year y. */
  function IchijoCost(c: Config, y: int): real
    requires ValidConfig(c) && y >= 1
  {
    LoanPart(IchijoPayment(c), c.ichijoLoanYears, y)
    + IchijoNetUtility(c)
    + RepairPart(c.ichijoRepairCost, c.ichijoRepairYear, y)
    - CreditPart(c.ichijoLoan, c.ichijoCreditRate, c.ichijoCreditYears, y)
  }

  /** The apartment's costs of years 1..n. */
  function AptPrefix(c: Config, n: nat): seq<real>
    requires ValidConfig(c)
  {
    seq(n, i requires 0 <= i < n => AptCost(c, i + 1))
  }

  /** The house's costs of years 1..n. */
  function IchijoPrefix(c: Config, n: nat): seq<real>
    requires ValidConfig(c)
  {
    seq(n, i requires 0 <= i < n => IchijoCost(c, i + 1))
  }

  /** The apartment's entry for year y (the body of the loop for it): the
      loan payment while the loan runs, the four recurring costs times the
      year's inflation multiplier, and minus the tax credit in its window. */
  method AptYear(c: Config, aptMonthly: real, inflator: real, y: int) returns (aptTotal: real)
    requires ValidConfig(c) && y >= 1
    requires aptMonthly == AptPayment(c) && inflator == Inflator(c.inflationRate, y)
    ensures aptTotal == AptCost(c, y)
  {
    aptTotal := if y <= c.aptLoanYears then aptMonthly else 0.0;
    aptTotal := aptTotal + (c.aptManagementFee + c.aptRepairReserve + c.aptParking + c.aptUtility) * ManYen * inflator;
    if y <= c.aptCreditYears {
      aptTotal := aptTotal - c.aptLoan * ManYen * c.aptCreditRate / 100.0 / 12.0;
    }
  }

  /** The house's entry for year y: the loan payment while the loan runs,
      utility minus solar income, the repair share in the repair year, and
      minus the tax credit in its window. */
  method IchijoYear(c: Config, ichijoMonthly: real, y: int) returns (ichijoTotal: real)
    requires ValidConfig(c) && y >= 1
    requires ichijoMonthly == IchijoPayment(c)
    ensures ichijoTotal == IchijoCost(c, y)
  {
    ichijoTotal := if y <= c.ichijoLoanYears then ichijoMonthly else 0.0;
    ichijoTotal := ichijoTotal + (c.ichijoUtility - c.ichijoSolar) * ManYen;
    if y == c.ichijoRepairYear {
      ichijoTotal := ichijoTotal + c.ichijoRepairCost * ManYen / 12.0;
    }
    if y <= c.ichijoCreditYears {
      ichijoTotal := ichijoTotal - c.ichijoLoan * ManYen * c.ichijoCreditRate / 100.0 / 12.0;
    }
  }

  /** The projection loop: one entry per year y = 1..years for each option.
      Entry y - 1 of each list is the cost of year y. */
  method Project(c: Config) returns (aptList: seq<real>, ichijoList: seq<real>)
    requires ValidConfig(c)
    ensures |aptList| == Horizon(c) && |ichijoList| == Horizon(c)
    ensures forall i :: 0 <= i < |aptList| ==> aptList[i] == AptCost(c, i + 1)
    ensures forall i :: 0 <= i < |ichijoList| ==> ichijoList[i] == IchijoCost(c, i + 1)
  {
    var aptMonthly := MonthlyPayment(c.aptLoan, c.aptLoanRate, c.aptLoanYears);
    var ichijoMonthly := MonthlyPayment(c.ichijoLoan, c.ichijoLoanRate, c.ichijoLoanYears);
    aptList, ichijoList := [], [];
    var y := 1;
    while y <= c.years
      invariant 1 <= y && |aptList| == y - 1 && |ichijoList| == y - 1
      invariant y - 1 <= Horizon(c)
      invariant forall i :: 0 <= i < |aptList| ==> aptList[i] == AptCost(c, i + 1)
      invariant forall i :: 0 <= i < |ichijoList| ==> ichijoList[i] == IchijoCost(c, i + 1)
    {
      var inflator := Pow(1.0 + c.inflationRate / 100.0, y - 1);
      var aptTotal := AptYear(c, aptMonthly, inflator, y);
      aptList := aptList + [aptTotal];
      var ichijoTotal := IchijoYear(c, ichijoMonthly, y);
      ichijoList := ichijoList + [ichijoTotal];
      y := y + 1;
    }
  }

  /** The whole computation: both payment amounts, both cost lists, and
      both running totals. Each list is the prefix of its option's costs
      over the horizon, and each running total is the prefix sum of it. */
  method Simulate(c: Config) returns (aptList: seq<real>, ichijoList: seq<real>,
                                      aptCumsum: seq<real>, ichijoCumsum: seq<real>)
    requires ValidConfig(c)
    ensures aptList == AptPrefix(c, Horizon(c)) && ichijoList == IchijoPrefix(c, Horizon(c))
    ensures |aptCumsum| == Horizon(c) && |ichijoCumsum| == Horizon(c)
    ensures forall i :: 0 <= i < |aptCumsum| ==> aptCumsum[i] == Sum(aptList[..i + 1])
    ensures forall i :: 0 <= i < |ichijoCumsum| ==> ichijoCumsum[i] == Sum(ichijoList[..i + 1])
  {
    aptList, ichijoList := Project(c);
    aptCumsum := CumSum(aptList);
    ichijoCumsum := CumSum(ichijoList);
  }

  /** The multiplier is 1 in year 1 and grows by (1 + inflation) a year. */
  lemma InflatorRecurrence(inflationRate: real, y: int)
    requires y >= 1
    ensures Inflator(inflationRate, 1) == 1.0
    ensures Inflator(inflationRate, y + 1) == Inflator(inflationRate, y) * (1.0 + inflationRate / 100.0)
  {
  }

  /** With no deflation the multiplier is at least 1 and never falls. */
  lemma {:induction false} InflatorMonotone(inflationRate: real, y1: int, y2: int)
    requires inflationRate >= 0.0 && 1 <= y1 <= y2
    ensures 1.0 <= Inflator(inflationRate, y1) <= Inflator(inflationRate, y2)
  {
    var x := 1.0 + inflationRate / 100.0;
    if y1 < y2 {
      InflatorMonotone(inflationRate, y1, y2 - 1);
      assert Inflator(inflationRate, y2) == Inflator(inflationRate, y2 - 1) * x;
      assert Inflator(inflationRate, y2 - 1) * x >= Inflator(inflationRate, y2 - 1) * 1.0;
    } else if y1 > 1 {
      InflatorMonotone(inflationRate, y1 - 1, y1 - 1);
      assert Inflator(inflationRate, y1) == Inflator(inflationRate, y1 - 1) * x;
      assert Inflator(inflationRate, y1 - 1) * x >= Inflator(inflationRate, y1 - 1) * 1.0;
    }
  }

  /** From one year to the next the apartment's cost changes only by the
      loan payment dropping out after its last year, the tax credit ending
      after its last year, and one more year of inflation on the recurring
      costs. */
  lemma AptYearStep(c: Config, y: int)
    requires ValidConfig(c) && y >= 1
    ensures AptCost(c, y + 1) == AptCost(c, y)
              - (if y == c.aptLoanYears then AptPayment(c) else 0.0)
              + AptRecurring(c) * (Inflator(c.inflationRate, y + 1) - Inflator(c.inflationRate, y))
              + (if y == c.aptCreditYears then TaxCredit(c.aptLoan, c.aptCreditRate) else 0.0)
  {
  }

  /** From one year to the next the house's cost changes only by the loan
      payment dropping out, the tax credit ending, and the repair share
      entering in the repair year and leaving after it; the utility net of
      solar income is the same every year. */
  lemma IchijoYearStep(c: Config, y: int)
    requires ValidConfig(c) && y >= 1
    ensures IchijoCost(c, y + 1) == IchijoCost(c, y)
              - (if y == c.ichijoLoanYears then IchijoPayment(c) else 0.0)
              + (if y + 1 == c.ichijoRepairYear then RepairAmount(c.ichijoRepairCost) else 0.0)
              - (if y == c.ichijoRepairYear then RepairAmount(c.ichijoRepairCost) else 0.0)
              + (if y == c.ichijoCreditYears then TaxCredit(c.ichijoLoan, c.ichijoCreditRate) else 0.0)
  {
  }

  /** The apartment's loan payment is counted exactly in the years
      1..loanYears: changing the loan rate changes those years' costs by
      the change in the payment and leaves every later year as it was. */
  lemma AptLoanWindow(c: Config, y: int, otherRate: real)
    requires ValidConfig(c) && y >= 1 && PaymentDefined(otherRate, c.aptLoanYears)
    ensures ValidConfig(c.(aptLoanRate := otherRate))
    ensures AptCost(c, y) - AptCost(c.(aptLoanRate := otherRate), y)
            == if y <= c.aptLoanYears then AptPayment(c) - AptPayment(c.(aptLoanRate := otherRate)) else 0.0
  {
    var c' := c.(aptLoanRate := otherRate);
    var shared := AptRecurring(c) * Inflator(c.inflationRate, y) - CreditPart(c.aptLoan, c.aptCreditRate, c.aptCreditYears, y);
    assert AptCost(c, y) == LoanPart(AptPayment(c), c.aptLoanYears, y) + shared;
    assert AptCost(c', y) == LoanPart(AptPayment(c'), c.aptLoanYears, y) + shared;
  }

  /** The house's loan payment is counted exactly in the years 1..loanYears. */
  lemma IchijoLoanWindow(c: Config, y: int, otherRate: real)
    requires ValidConfig(c) && y >= 1 && PaymentDefined(otherRate, c.ichijoLoanYears)
    ensures ValidConfig(c.(ichijoLoanRate := otherRate))
    ensures IchijoCost(c, y) - IchijoCost(c.(ichijoLoanRate := otherRate), y)
            == if y <= c.ichijoLoanYears then IchijoPayment(c) - IchijoPayment(c.(ichijoLoanRate := otherRate)) else 0.0
  {
  }

  /** The apartment's tax credit lowers exactly the years 1..creditYears,
      compared with the same scenario without a credit. */
  lemma AptCreditWindow(c: Config, y: int)
    requires ValidConfig(c) && y >= 1
    ensures ValidConfig(c.(aptCreditRate := 0.0))
    ensures AptCost(c.(aptCreditRate := 0.0), y) - AptCost(c, y)
            == if y <= c.aptCreditYears then TaxCredit(c.aptLoan, c.aptCreditRate) else 0.0
  {
  }

  /** The house's tax credit lowers exactly the years 1..creditYears. */
  lemma IchijoCreditWindow(c: Config, y: int)
    requires ValidConfig(c) && y >= 1
    ensures ValidConfig(c.(ichijoCreditRate := 0.0))
    ensures IchijoCost(c.(ichijoCreditRate := 0.0), y) - IchijoCost(c, y)
            == if y <= c.ichijoCreditYears then TaxCredit(c.ichijoLoan, c.ichijoCreditRate) else 0.0
  {
  }

  /** The repair raises exactly the repair year, compared with the same
      scenario without a repair. */
  lemma IchijoRepairOnce(c: Config, y: int)
    requires ValidConfig(c) && y >= 1
    ensures ValidConfig(c.(ichijoRepairCost := 0.0))
    ensures IchijoCost(c, y) - IchijoCost(c.(ichijoRepairCost := 0.0), y)
            == if y == c.ichijoRepairYear then RepairAmount(c.ichijoRepairCost) else 0.0
  {
  }

  /** Inflation never reaches the house: its costs are the same whatever
      the inflation rate. */
  lemma IchijoIgnoresInflation(c: Config, y: int, inflationRate: real)
    requires ValidConfig(c) && y >= 1
    ensures ValidConfig(c.(inflationRate := inflationRate))
    ensures IchijoCost(c.(inflationRate := inflationRate), y) == IchijoCost(c, y)
  {
  }
}
