# Housing cost comparison: cost projection engine

This project models the calculation core of `app.py`, a housing cost simulator. It compares a condominium ("apartment") with a detached house built by Ichijo (the "house").

For each year `y = 1..years` of the comparison horizon, it computes the monthly cost of each option in yen:

- **Apartment**: the loan payment while its loan runs, plus four recurring costs under compound inflation, minus a mortgage tax credit inside its window.
- **House**: the loan payment while its loan runs, plus utilities net of solar income, plus a repair share in one scheduled year, minus its tax credit.

It then builds the running totals of both lists. All entered amounts are in man-yen (10,000 yen); the factor 10,000 is applied inside the formulas, as the code does.

## Modules

- `Loan` (`loan.dfy`) covers the level monthly payment of `calculate_monthly_payment` and the balance a series of payments leaves. The key lemma is `FullyAmortizes`: the `years*12` computed payments bring the balance to exactly zero, at a zero rate and at a non-zero rate.
- `Projection` (`projection.dfy`) holds the configuration (the sidebar values), the per-year cost functions `AptCost` and `IchijoCost`, and four imperative methods:
  - `AptYear` and `IchijoYear`: the step-by-step `+=`/`-=` updates that build one year's entry (lines 55-58 and 61-66);
  - `Project`: the loop with its two appended lists;
  - `Simulate`: the whole computation of lines 46-70.
  It also holds the year-to-year and window lemmas.
- `Cumulative` (`cumulative.dfy`) covers the prefix-sum comprehensions and their recurrence.
- `Totals` (`totals.dfy`) gives closed forms of the sum of the monthly figures of years 1..n of each option: one per-month figure per year, as the running totals add them. It also ties the last running total to that closed form. This sum is one twelfth of the yen paid over those years; for example, a repair of C man-yen contributes C*10000/12. The chart at app.py:87-91 labels the same sum "JPY (cumulative)". That may be a units quirk of the source; it is an observation from reading the code, not executed.

Arithmetic is exact (`real`). Python's `**` with a whole exponent is the recursive `Loan.Pow`.

## Model

| member | source | states |
|---|---|---|
| Loan.MonthlyPayment | app.py:8-13 | The payment definition: r = rate/100/12 and n = years*12. At r == 0 it is principal*10000/n; otherwise principal*10000*r*(1+r)^n/((1+r)^n - 1). Its meaning is stated by `Loan.PaymentIdentity` and `Loan.FullyAmortizes`. |
| Loan.Balance | app.py:8-13 | A reference recurrence that models no source line: the balance after k payments, b_0 = b and b_k = b_(k-1)*(1+r) - p. It is the independent partner against which the payment is checked. |
| Loan.PaymentIdentity | app.py:8-13 | At a zero monthly rate the n = years*12 payments add up to the principal in yen. Otherwise the payment p satisfies the annuity identity p*((1+r)^n - 1) == principal*10000*r*(1+r)^n with r = rate/100/12. |
| Loan.FullyAmortizes | app.py:8-13 | Starting from the principal in yen, applying interest at r and paying the computed payment n times leaves a balance of exactly zero, whether or not the rate is zero. |
| Loan.BalanceClosedForm | app.py:13 | Scaled by the rate, the balance after k payments is the principal grown by (1+r)^k less the payments, which add up to p*((1+r)^k - 1)/r. |
| Loan.BalanceWithoutInterest | app.py:11-12 | At a zero rate each payment takes exactly p off the balance. |
| Loan.PaidOffWithInterest | app.py:13 | At a non-zero rate, any payment satisfying the annuity identity leaves a zero balance after n payments. |
| Loan.PaidOffWithoutInterest | app.py:11-12 | At a zero rate, n payments that add up to the principal leave a zero balance. |
| Loan.PaymentPositive | app.py:9-13 | With a positive principal, a positive term and an annual rate above -1200 %, the formula is defined and the payment is positive, for negative rates too. |
| Loan.PaymentDefinedAboveMinus1200 | app.py:11-13 | With a positive term and an annual rate above -1200 %, neither branch divides by zero. |
| Loan.UndefinedAtMinus2400 | app.py:11-13 | At an annual rate of -2400 % the general branch divides by zero for every positive term, because (1+r)^n == 1 although r != 0. |
| Projection.Inflator | app.py:53 | The inflation multiplier of year y: (1 + inflation/100)^(y-1). |
| Projection.AptCost | app.py:53-58 | The apartment's cost of year y: the payment if y <= loan years (else 0), plus (management + repair reserve + parking + utility)*10000*Inflator(y), minus loan*10000*credit rate/100/12 if y <= credit years. |
| Projection.IchijoCost | app.py:61-66 | The house's cost of year y: the payment if y <= loan years (else 0), plus (utility - solar)*10000, plus repair cost*10000/12 if y == repair year, minus loan*10000*credit rate/100/12 if y <= credit years. |
| Projection.AptYear | app.py:53-58 | The apartment's entry built step by step (payment or 0, plus the inflated recurring costs, minus the credit) is the apartment's cost of year y. |
| Projection.IchijoYear | app.py:61-66 | The house's entry built step by step is the house's cost of year y. |
| Projection.Project | app.py:52-67 | Both lists have one entry per year of the horizon, and entry i of each is that option's cost of year i + 1. |
| Projection.Simulate | app.py:46-70 | Each list is the option's cost prefix over the horizon. Each running-total list has the same length, and its entry i is the sum of the first i + 1 costs. |
| Projection.InflatorRecurrence | app.py:53 | The inflation multiplier is 1 in year 1 and is multiplied by (1 + inflation/100) each following year. |
| Projection.InflatorMonotone | app.py:53 | With a non-negative inflation rate the multiplier is at least 1 and never decreases from year to year. |
| Projection.AptYearStep | app.py:53-58 | The apartment's cost of year y+1 differs from year y only by three things: the payment dropping out after the loan's last year, the credit ending after its last year, and one more year of inflation on the recurring costs. |
| Projection.IchijoYearStep | app.py:61-66 | The house's cost of year y+1 differs from year y only by the payment dropping out, the credit ending, and the repair share entering and leaving. The net utility term is unchanged. |
| Projection.AptLoanWindow | app.py:55 | The apartment's loan payment counts exactly in years 1..loan years: changing the loan rate changes exactly those years, by the change in the payment. |
| Projection.IchijoLoanWindow | app.py:61 | The house's loan payment counts exactly in years 1..loan years. |
| Projection.AptCreditWindow | app.py:57-58 | The apartment's credit loan*10000*rate/100/12 is subtracted in years 1..credit years and in no other year. |
| Projection.IchijoCreditWindow | app.py:65-66 | The house's credit is subtracted in years 1..credit years and in no other year. |
| Projection.IchijoRepairOnce | app.py:63-64 | The repair share cost*10000/12 is added in the repair year and in no other year. |
| Projection.IchijoIgnoresInflation | app.py:62 | The house's costs do not depend on the inflation rate. |
| Cumulative.Sum | app.py:69-70 | Python's `sum` of a list: 0 for the empty list, otherwise the sum of all but the last entry plus the last entry. |
| Cumulative.CumSum | app.py:69-70 | The running totals have as many entries as the list. |
| Cumulative.CumSumRecurrence | app.py:69-70 | The first running total is the first entry, and each later total is the previous total plus the next entry. |
| Cumulative.CumSumLast | app.py:69-70 | The last running total is the sum of the whole list. |
| Cumulative.CumSumMonotone | app.py:69-70 | Running totals of a list without negative entries never decrease. |
| Cumulative.CumSumConstant | app.py:69-70 | Running totals of a constant list c are (i+1)*c. |
| Totals.GeomSumClosedForm | app.py:53-56 | The growth factors add up in closed form: 1 + (1+g) + ... + (1+g)^(n-1), multiplied by g, equals (1+g)^n - 1. |
| Totals.GeomSumOfOne | app.py:62 | Without growth the sum of the n factors is n. |
| Totals.WindowTotalClosedForm | app.py:55-58 | Over years 1..n, an amount counted while y <= limit is counted max(0, min(n, limit)) times. |
| Totals.GrowingTotalClosedForm | app.py:56 | Over years 1..n, an amount growing by a fixed factor totals the amount times the geometric sum of the factor. |
| Totals.OneOffTotalClosedForm | app.py:63-64 | A one-off amount is counted once if its year lies in 1..n, and not at all otherwise. |
| Totals.SumOfYearCosts | app.py:52-67 | The total of a list of yearly costs with the shared shape (loan window, growing recurring cost, one-off amount, credit window) is split into the four part totals. |
| Totals.PartsTotalClosedForm | app.py:52-67 | The four parts in closed form: payment*max(0, min(n, L)) + recurring*geometric sum + the one-off amount if its year is in 1..n - credit*max(0, min(n, K)). |
| Totals.ClosedTotalWithGrowth | app.py:53-58 | With growth factor 1+g (the apartment's inflation, g = inflation/100) and no one-off amount, g times the closed total is g*(payment count term - credit count term) + recurring*((1+g)^n - 1), with no geometric sum left. |
| Totals.ClosedTotalWithoutGrowth | app.py:62 | Without growth the recurring part of the closed total is recurring*n. |
| Totals.AptTotal | app.py:52-59 | The apartment's monthly figures of years 1..n add up to its part-by-part total: payment*min(n, loan years) + recurring*(geometric sum of the inflation factor) - credit*max(0, min(n, credit years)). |
| Totals.IchijoTotal | app.py:60-67 | The house's monthly figures of years 1..n add up to: payment*min(n, loan years) + net utility times the sum of n growth factors of 1 (which is n by `Totals.ClosedTotalWithoutGrowth`) + the repair share if its year is in 1..n - credit*max(0, min(n, credit years)). |
| Totals.FinalCumulative | app.py:69-70 | The last running total of each option over the horizon equals that option's closed total. |

## Left out

- Streamlit page setup, title and sidebar widgets (app.py lines 2, 6, 15-43) are not modelled. The values they return are the fields of `Projection.Config`, with no range checks. The slider limits (horizon 10-50, inflation 0-5 %) are not assumed anywhere: the horizon may be any whole number, and a value below 1 gives empty lists, as `range(1, years + 1)` does.
- Chart construction and rendering with matplotlib (lines 3-4, 73-97) are not modelled. They are presentation over foreign library calls.
- IEEE floating-point rounding of `/` and `**` is not modelled. Every property holds for exact reals only.
- Year counts (loan terms, credit windows, repair year, horizon) are whole numbers, as the widgets' integer defaults give. A fractional year typed into the source's number inputs is not modelled.
- Loan.MonthlyPayment: requires a positive term, while the source also computes a value for a negative term (by a negative-count division or a negative power); it also requires (1+r)^n != 1 when r != 0. These are exactly the inputs on which the source divides by zero: a zero term, and a rate such as -2400 % (see `Loan.UndefinedAtMinus2400`). `Projection.ValidConfig` carries both requirements for each loan, so `Project` and `Simulate` need them too.
- There is no validation of negative principals, rates or terms, and there is no winner/savings summary. The code has neither, and the model follows the code.
- On inflation, the model follows the code: the house's utility and solar income are never inflated (line 62), and only the apartment's four recurring costs are (line 56).
