/**
 * The two records that the profit calculator exchanges with its callers:
 * the eight numeric inputs of one sale and the derived breakdown.
 * All amounts are exact reals; rates are percentages (20 means 20%).
 */
module Types {

  /** One sale: a VAT-inclusive list price, three VAT-inclusive costs and four rates. */
  datatype CalculatorInputs = CalculatorInputs(
    salesPrice: real,      // list price, VAT included
    costOfGoods: real,     // supplier cost, VAT included
    shippingCost: real,    // shipping expense, VAT included
    marketingCost: real,   // per-order advertising spend, VAT included
    commissionRate: real,  // marketplace commission, percent of the discounted gross price
    vatRate: real,         // VAT percent applied to every amount
    incomeTaxRate: real,   // flat income-tax percent
    discountRate: real     // percent taken off the list price
  )

  /** The breakdown of one sale. */
  datatype CalculationResult = CalculationResult(
    effectiveSalesPrice: real,  // list price after the discount, VAT included
    grossIncome: real,          // total revenue
    costOfGoodsExVat: real,
    shippingExVat: real,
    marketingExVat: real,
    commissionExVat: real,
    totalExpensesExVat: real,
    outputVat: real,            // VAT collected on the sale
    totalInputVat: real,        // VAT paid on the expenses
    vatPayable: real,           // VAT owed for the sale
    vatCarryForward: real,      // excess input VAT credited to a later period
    grossProfit: real,          // tax base
    incomeTax: real,
    netProfit: real,
    profitMargin: real          // percent of the effective sales price
  )

  /** The inputs the calculator starts from. */
  const DefaultInputs: CalculatorInputs :=
    CalculatorInputs(
      salesPrice := 500.0,
      costOfGoods := 200.0,
      shippingCost := 40.0,
      marketingCost := 50.0,
      commissionRate := 20.0,
      vatRate := 20.0,
      incomeTaxRate := 20.0,
      discountRate := 0.0)
}
