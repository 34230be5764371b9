# E-commerce net profit calculator — verified model

This project models the per-sale profit calculator of an e-commerce net
profit tool (`calculateProfit`). From a VAT-inclusive list price, three
VAT-inclusive costs (goods, shipping, marketing), a marketplace commission
rate, a VAT rate, an income-tax rate and a discount rate, it computes:

1. the effective sales price after the discount;
2. the ex-VAT part and the VAT part of the sale price and of each cost, by
   dividing by `1 + vatRate/100`;
3. the commission, charged on the VAT-inclusive discounted price and split
   the same way;
4. the VAT settlement: output VAT minus total input VAT, either payable or
   carried forward;
5. the tax base (gross profit): ex-VAT revenue minus ex-VAT expenses;
6. income tax on a positive base only, net profit, and the profit margin,
   which is 0 when the effective price is not positive.

`types.dfy` (module `Types`) holds the input record `CalculatorInputs`
(types.ts:1-10), the result record `CalculationResult` (types.ts:12-33) and
the default inputs `DefaultInputs` (types.ts:35-44: price 500, cost of goods
200, shipping 40, marketing 50, commission 20%, VAT 20%, income tax 20%, no
discount). These are data, not operations, so they have no row in the table
below; `DefaultScenario` states what the calculation gives on the defaults. `calculator_service.dfy` (module `CalculatorService`) holds
the calculation as pure functions over exact `real`s, one per stage, and
lemmas about the whole calculation. The only precondition is
`vatRate != -100`, the one value at which the source divides by zero.

Beyond the invariants of the result record, the lemmas prove two identities
that follow from the pipeline: the VAT balance (payable minus carried
forward) is exactly `vatRate` percent of the gross profit, so with a positive
VAT rate VAT is payable exactly when there is a profit; and the gross profit
grossed up by VAT equals the VAT-inclusive revenue net of commission minus the
VAT-inclusive costs, so VAT never enters the tax base.

## Model

| member | source | states |
|---|---|---|
| CalculatorService.EffectivePrice | services/calculatorService.ts:16 | the discount taken off is `discountRate` percent of the list price; a zero discount leaves the price unchanged, a 100% discount makes it 0, and a discount in [0, 100] keeps a non-negative price within [0, list price] |
| CalculatorService.SplitVat | services/calculatorService.ts:19-32 | the ex-VAT part times `1 + vatRate/100` gives back the amount, ex-VAT part plus VAT part equals the amount, and the VAT part is `vatRate` percent of the ex-VAT part |
| CalculatorService.CommissionGross | services/calculatorService.ts:37 | a zero commission rate gives a zero commission; a non-negative price and rate give a non-negative commission |
| CalculatorService.SettleVat | services/calculatorService.ts:42-45 | payable and carried-forward VAT are both non-negative, at least one is 0, and payable minus carried forward equals output VAT minus input VAT |
| CalculatorService.IncomeTax | services/calculatorService.ts:52 | no tax on a non-positive base; never negative for a non-negative rate; on a positive base it is `incomeTaxRate` percent of the base; with a rate of at most 100% it never exceeds the base |
| CalculatorService.ProfitMargin | services/calculatorService.ts:59 | 0 when the effective price is not positive; otherwise margin times price equals net profit times 100, and the margin is positive exactly when the net profit is |
| CalculatorService.CalculateProfit | services/calculatorService.ts:3-78 | the effective price is the list price less `discountRate` percent; each ex-VAT field (sale, goods, shipping, marketing, commission) grossed up by `1 + vatRate/100` gives back its VAT-inclusive input, the commission being `commissionRate` percent of the effective price; a positive base is taxed at `incomeTaxRate` percent; gross income equals the effective price; total expenses are the sum of the four ex-VAT expenses; the VAT settlement invariants; gross profit is ex-VAT revenue minus ex-VAT expenses; no income tax on a non-positive base; net profit is gross profit minus income tax; the margin guard |
| CalculatorService.ExVatBounds | services/calculatorService.ts:19-32 | with a non-negative rate, the ex-VAT part and the VAT part of a non-negative amount both lie in [0, amount] |
| CalculatorService.SplitOfGrossedUp | services/calculatorService.ts:19 | stripping VAT from a net amount grossed up by VAT returns that net amount and its VAT |
| CalculatorService.SettlementUnique | services/calculatorService.ts:44-45 | any payable/carry-forward pair meeting the settlement invariants is the one the calculator produces |
| CalculatorService.ExpensesSplitCompletely | services/calculatorService.ts:25-48 | total ex-VAT expenses plus total input VAT equal the VAT-inclusive costs plus the VAT-inclusive commission |
| CalculatorService.VatBalanceIsRateOfTaxBase | services/calculatorService.ts:42-49 | VAT payable minus VAT carried forward equals `vatRate` percent of the gross profit |
| CalculatorService.VatSignFollowsProfit | services/calculatorService.ts:42-49 | with a positive VAT rate, VAT is payable exactly when the gross profit is positive and carried forward exactly when it is negative |
| CalculatorService.TaxBaseFromGrossAmounts | services/calculatorService.ts:16-49 | gross profit times `1 + vatRate/100` equals the effective price net of commission minus the three VAT-inclusive costs, so VAT payable or carried forward never enters the base |
| CalculatorService.NonNegativeAmounts | services/calculatorService.ts:16-48 | on non-negative inputs with a discount of at most 100%, the effective price, output VAT, every ex-VAT expense and both totals are non-negative, and output VAT does not exceed the effective price |
| CalculatorService.NetProfitBounds | services/calculatorService.ts:52-56 | with a tax rate in [0, 100], a loss passes to net profit unchanged and a profit stays within [0, gross profit] after tax |
| CalculatorService.FullDiscount | services/calculatorService.ts:16-59 | a 100% discount gives a zero effective price, zero output VAT, zero commission, margin 0, and on non-negative costs a non-positive gross profit with no income tax |
| CalculatorService.ZeroCommission | services/calculatorService.ts:37-48 | a zero commission rate gives a zero ex-VAT commission, and the commission drops out of total expenses and total input VAT |
| CalculatorService.DefaultScenario | types.ts:35-44 | on the default inputs: effective price 500, output VAT 250/3, input VAT 65, expenses 325, gross profit 275/3, income tax 55/3, net profit 220/3, VAT payable 55/3 with nothing carried forward, margin 44/3 |

## Left out

- `formatCurrency` and `formatPercent` (services/calculatorService.ts:80-93): locale formatting through `Intl.NumberFormat`, which the model cannot see.
- The user interface (App.tsx, components/DistributionChart.tsx, components/InputGroup.tsx, components/ResultCard.tsx): state handling, input coercion, charting and layout are presentation, not part of the calculation.
- Floating point: every quantity is an exact `real`, so the model proves exact identities and does not reproduce IEEE-754 rounding.
- `vatRate = -100`: the source divides by zero there (giving an infinite or undefined value); the model excludes it by precondition instead of inventing a guard.
- Determinism (the same inputs give the same result) holds because the calculation is a function; it needs no separate statement.
