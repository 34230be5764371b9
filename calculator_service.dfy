/**
 * The per-sale profit calculator: discount, VAT separation, commission,
 * VAT settlement, tax base, income tax, net profit and margin, computed in
 * one pass over exact reals.
 */
module CalculatorService {
  import opened Types

  /** The VAT-inclusive list price after a percentage discount. */
  function EffectivePrice(salesPrice: real, discountRate: real): (p: real)
    ensures salesPrice - p == salesPrice * discountRate / 100.0  // the discount is a share of the list price
    ensures discountRate == 0.0 ==> p == salesPrice
    ensures discountRate == 100.0 ==> p == 0.0
    ensures 0.0 <= salesPrice && 0.0 <= discountRate <= 100.0 ==> 0.0 <= p <= salesPrice
  {
    salesPrice * (1.0 - discountRate / 100.0)
  }

  /** A VAT-inclusive amount taken apart into its net part and its VAT part. */
  datatype VatSplit = VatSplit(exVat: real, vat: real)

  /**
   * Strips VAT at `vatRate` percent from a VAT-inclusive amount.
   * Adding VAT back to the net part gives the amount again, and the VAT
   * part is exactly `vatRate` percent of the net part.
   */
  function SplitVat(amount: real, vatRate: real): (s: VatSplit)
    requires vatRate != -100.0
    ensures s.exVat * (1.0 + vatRate / 100.0) == amount
    ensures s.exVat + s.vat == amount
    ensures s.vat == s.exVat * vatRate / 100.0
  {
    var exVat := amount / (1.0 + vatRate / 100.0);
    VatSplit(exVat, amount - exVat)
  }

  /** What the VAT balance of one sale turns into. */
  datatype VatSettlement = VatSettlement(payable: real, carryForward: real)

  /**
   * Offsets output VAT against input VAT: a positive balance is payable, a
   * negative one is carried forward, and never both.
   */
  function SettleVat(outputVat: real, totalInputVat: real): (s: VatSettlement)
    ensures s.payable >= 0.0 && s.carryForward >= 0.0
    ensures s.payable * s.carryForward == 0.0
    ensures s.payable - s.carryForward == outputVat - totalInputVat
  {
    var balance := outputVat - totalInputVat;
    VatSettlement(
      if balance > 0.0 then balance else 0.0,
      if balance < 0.0 then -balance else 0.0)
  }

  /** Flat income tax, charged only on a positive tax base. */
  function IncomeTax(grossProfit: real, incomeTaxRate: real): (t: real)
    ensures grossProfit <= 0.0 ==> t == 0.0
    ensures 0.0 <= incomeTaxRate ==> 0.0 <= t
    ensures 0.0 < grossProfit ==> t * 100.0 == grossProfit * incomeTaxRate
    ensures incomeTaxRate <= 100.0 ==> t <= (if grossProfit > 0.0 then grossProfit else 0.0)
  {
    if grossProfit > 0.0 then grossProfit * (incomeTaxRate / 100.0) else 0.0
  }

  /** Net profit as a percentage of the effective sales price; 0 when there is no price. */
  function ProfitMargin(netProfit: real, effectiveSalesPrice: real): (m: real)
    ensures effectiveSalesPrice <= 0.0 ==> m == 0.0
    ensures effectiveSalesPrice > 0.0 ==> m * effectiveSalesPrice == netProfit * 100.0
    ensures effectiveSalesPrice > 0.0 ==> (m > 0.0 <==> netProfit > 0.0)
  {
    if effectiveSalesPrice > 0.0 then (netProfit / effectiveSalesPrice) * 100.0 else 0.0
  }

  /** The breakdown of one sale. */
  function CalculateProfit(inputs: CalculatorInputs): (r: CalculationResult)
    requires inputs.vatRate != -100.0
    // each field in terms of the inputs
    ensures r.effectiveSalesPrice == inputs.salesPrice * (1.0 - inputs.discountRate / 100.0)
    ensures (r.effectiveSalesPrice - r.outputVat) * (1.0 + inputs.vatRate / 100.0) == r.effectiveSalesPrice
    ensures r.costOfGoodsExVat * (1.0 + inputs.vatRate / 100.0) == inputs.costOfGoods
    ensures r.shippingExVat * (1.0 + inputs.vatRate / 100.0) == inputs.shippingCost
    ensures r.marketingExVat * (1.0 + inputs.vatRate / 100.0) == inputs.marketingCost
    ensures r.commissionExVat * (1.0 + inputs.vatRate / 100.0)
         == r.effectiveSalesPrice * inputs.commissionRate / 100.0
    ensures r.grossProfit > 0.0 ==> r.incomeTax * 100.0 == r.grossProfit * inputs.incomeTaxRate
    // invariants of the result record
    ensures r.grossIncome == r.effectiveSalesPrice
    ensures r.totalExpensesExVat
         == r.costOfGoodsExVat + r.shippingExVat + r.marketingExVat + r.commissionExVat
    ensures r.vatPayable >= 0.0 && r.vatCarryForward >= 0.0
    ensures r.vatPayable * r.vatCarryForward == 0.0
    ensures r.vatPayable - r.vatCarryForward == r.outputVat - r.totalInputVat
    ensures r.grossProfit == (r.effectiveSalesPrice - r.outputVat) - r.totalExpensesExVat
    ensures r.grossProfit <= 0.0 ==> r.incomeTax == 0.0
    ensures r.netProfit == r.grossProfit - r.incomeTax
    ensures r.effectiveSalesPrice <= 0.0 ==> r.profitMargin == 0.0
    ensures r.effectiveSalesPrice > 0.0 ==> r.profitMargin * r.effectiveSalesPrice == r.netProfit * 100.0
  {
    var effectiveSalesPrice := EffectivePrice(inputs.salesPrice, inputs.discountRate);
    var sale := SplitVat(effectiveSalesPrice, inputs.vatRate);
    var goods := SplitVat(inputs.costOfGoods, inputs.vatRate);
    var shipping := SplitVat(inputs.shippingCost, inputs.vatRate);
    var marketing := SplitVat(inputs.marketingCost, inputs.vatRate);
    var commission := SplitVat(CommissionGross(effectiveSalesPrice, inputs.commissionRate), inputs.vatRate);
    var totalInputVat := goods.vat + shipping.vat + marketing.vat + commission.vat;
    var settlement := SettleVat(sale.vat, totalInputVat);
    var totalExpensesExVat := goods.exVat + shipping.exVat + marketing.exVat + commission.exVat;
    var grossProfit := sale.exVat - totalExpensesExVat;
    var incomeTax := IncomeTax(grossProfit, inputs.incomeTaxRate);
    var netProfit := grossProfit - incomeTax;
    CalculationResult(
      effectiveSalesPrice := effectiveSalesPrice,
      grossIncome := effectiveSalesPrice,
      costOfGoodsExVat := goods.exVat,
      shippingExVat := shipping.exVat,
      marketingExVat := marketing.exVat,
      commissionExVat := commission.exVat,
      totalExpensesExVat := totalExpensesExVat,
      outputVat := sale.vat,
      totalInputVat := totalInputVat,
      vatPayable := settlement.payable,
      vatCarryForward := settlement.carryForward,
      grossProfit := grossProfit,
      incomeTax := incomeTax,
      netProfit := netProfit,
      profitMargin := ProfitMargin(netProfit, effectiveSalesPrice))
  }

  /** The commission invoice, VAT included: a percentage of the discounted gross price. */
  function CommissionGross(effectiveSalesPrice: real, commissionRate: real): (c: real)
    ensures commissionRate == 0.0 ==> c == 0.0
    ensures 0.0 <= effectiveSalesPrice && 0.0 <= commissionRate ==> 0.0 <= c
  {
    effectiveSalesPrice * (commissionRate / 100.0)
  }

  // ---------------------------------------------------------------------------
  // Properties of the VAT split

  /** With a non-negative rate, the net part of a non-negative amount lies between 0 and the amount. */
  lemma ExVatBounds(amount: real, vatRate: real)
    requires 0.0 <= amount && 0.0 <= vatRate
    ensures 0.0 <= SplitVat(amount, vatRate).exVat <= amount
    ensures 0.0 <= SplitVat(amount, vatRate).vat <= amount
  {
  }

  /** Splitting is the inverse of adding VAT to a net amount. */
  lemma SplitOfGrossedUp(net: real, vatRate: real)
    requires vatRate != -100.0
    ensures SplitVat(net * (1.0 + vatRate / 100.0), vatRate) == VatSplit(net, net * vatRate / 100.0)
  {
    var d := 1.0 + vatRate / 100.0;
    var s := SplitVat(net * d, vatRate);
    assert (s.exVat - net) * d == 0.0;
    ProductZero(s.exVat - net, d);
  }

  /** A product is zero only when one of its factors is. */
  lemma ProductZero(x: real, y: real)
    requires x * y == 0.0
    ensures x == 0.0 || y == 0.0
  {
  }

  /** The sign of a product with a positive factor is the sign of the other factor. */
  lemma SignOfScaled(x: real, k: real)
    requires k > 0.0
    ensures x > 0.0 <==> x * k > 0.0
    ensures x < 0.0 <==> x * k < 0.0
  {
  }

  /** The two settlement outcomes are the only pair meeting the settlement contract. */
  lemma SettlementUnique(outputVat: real, totalInputVat: real, payable: real, carryForward: real)
    requires payable >= 0.0 && carryForward >= 0.0
    requires payable * carryForward == 0.0
    requires payable - carryForward == outputVat - totalInputVat
    ensures SettleVat(outputVat, totalInputVat) == VatSettlement(payable, carryForward)
  {
  }

  // ---------------------------------------------------------------------------
  // Properties of the whole calculation

  /** Every VAT-inclusive cost, commission included, is split completely into net expense and input VAT. */
  lemma ExpensesSplitCompletely(inputs: CalculatorInputs)
    requires inputs.vatRate != -100.0
    ensures var r := CalculateProfit(inputs);
      r.totalExpensesExVat + r.totalInputVat
      == inputs.costOfGoods + inputs.shippingCost + inputs.marketingCost
         + CommissionGross(r.effectiveSalesPrice, inputs.commissionRate)
  {
  }

  /**
   * The VAT balance is the VAT rate applied to the tax base: whatever is
   * payable or carried forward is `vatRate` percent of the gross profit.
   */
  lemma VatBalanceIsRateOfTaxBase(inputs: CalculatorInputs)
    requires inputs.vatRate != -100.0
    ensures var r := CalculateProfit(inputs);
      r.vatPayable - r.vatCarryForward == r.grossProfit * inputs.vatRate / 100.0
  {
  }

  /** With a positive VAT rate, VAT is payable exactly on a profit and carried forward exactly on a loss. */
  lemma VatSignFollowsProfit(inputs: CalculatorInputs)
    requires inputs.vatRate > 0.0
    ensures var r := CalculateProfit(inputs);
      && (r.vatPayable > 0.0 <==> r.grossProfit > 0.0)
      && (r.vatCarryForward > 0.0 <==> r.grossProfit < 0.0)
  {
    var r := CalculateProfit(inputs);
    VatBalanceIsRateOfTaxBase(inputs);
    assert r.grossProfit * inputs.vatRate / 100.0 == r.grossProfit * (inputs.vatRate / 100.0);
    SignOfScaled(r.grossProfit, inputs.vatRate / 100.0);
  }

  /**
   * The tax base, grossed up by VAT, is the VAT-inclusive revenue net of
   * commission minus the VAT-inclusive costs: VAT never enters it.
   */
  lemma TaxBaseFromGrossAmounts(inputs: CalculatorInputs)
    requires inputs.vatRate != -100.0
    ensures var r := CalculateProfit(inputs);
      r.grossProfit * (1.0 + inputs.vatRate / 100.0)
      == r.effectiveSalesPrice * (1.0 - inputs.commissionRate / 100.0)
         - inputs.costOfGoods - inputs.shippingCost - inputs.marketingCost
  {
  }

  /** On non-negative inputs with a discount of at most 100%, every amount and VAT total is non-negative. */
  lemma NonNegativeAmounts(inputs: CalculatorInputs)
    requires 0.0 <= inputs.salesPrice && 0.0 <= inputs.costOfGoods
    requires 0.0 <= inputs.shippingCost && 0.0 <= inputs.marketingCost
    requires 0.0 <= inputs.commissionRate && 0.0 <= inputs.vatRate
    requires 0.0 <= inputs.discountRate <= 100.0
    ensures var r := CalculateProfit(inputs);
      && 0.0 <= r.effectiveSalesPrice <= inputs.salesPrice
      && 0.0 <= r.outputVat <= r.effectiveSalesPrice
      && 0.0 <= r.costOfGoodsExVat && 0.0 <= r.shippingExVat
      && 0.0 <= r.marketingExVat && 0.0 <= r.commissionExVat
      && 0.0 <= r.totalExpensesExVat && 0.0 <= r.totalInputVat
  {
    var price := EffectivePrice(inputs.salesPrice, inputs.discountRate);
    ExVatBounds(price, inputs.vatRate);
    ExVatBounds(inputs.costOfGoods, inputs.vatRate);
    ExVatBounds(inputs.shippingCost, inputs.vatRate);
    ExVatBounds(inputs.marketingCost, inputs.vatRate);
    ExVatBounds(CommissionGross(price, inputs.commissionRate), inputs.vatRate);
  }

  /** Income tax of at most 100% never turns a profit into a loss and never deepens a loss. */
  lemma NetProfitBounds(inputs: CalculatorInputs)
    requires inputs.vatRate != -100.0
    requires 0.0 <= inputs.incomeTaxRate <= 100.0
    ensures var r := CalculateProfit(inputs);
      && (r.grossProfit <= 0.0 ==> r.netProfit == r.grossProfit)
      && (r.grossProfit > 0.0 ==> 0.0 <= r.netProfit <= r.grossProfit)
  {
  }

  /** A 100% discount leaves no revenue: no output VAT, margin 0, and on non-negative costs a loss with no tax. */
  lemma FullDiscount(inputs: CalculatorInputs)
    requires inputs.vatRate >= 0.0 && inputs.discountRate == 100.0
    requires 0.0 <= inputs.costOfGoods && 0.0 <= inputs.shippingCost && 0.0 <= inputs.marketingCost
    ensures var r := CalculateProfit(inputs);
      && r.effectiveSalesPrice == 0.0 && r.outputVat == 0.0 && r.commissionExVat == 0.0
      && r.profitMargin == 0.0
      && r.grossProfit <= 0.0 && r.incomeTax == 0.0 && r.netProfit == r.grossProfit
  {
  }

  /** A zero commission rate drops the commission out of the expenses and the input VAT. */
  lemma ZeroCommission(inputs: CalculatorInputs)
    requires inputs.vatRate != -100.0 && inputs.commissionRate == 0.0
    ensures var r := CalculateProfit(inputs);
      && r.commissionExVat == 0.0
      && r.totalExpensesExVat == r.costOfGoodsExVat + r.shippingExVat + r.marketingExVat
      && r.totalInputVat
         == (inputs.costOfGoods - r.costOfGoodsExVat) + (inputs.shippingCost - r.shippingExVat)
            + (inputs.marketingCost - r.marketingExVat)
  {
    var price := EffectivePrice(inputs.salesPrice, inputs.discountRate);
    var commission := SplitVat(CommissionGross(price, inputs.commissionRate), inputs.vatRate);
    ProductZero(commission.exVat, 1.0 + inputs.vatRate / 100.0);
  }

  /** The default sale: a profit of 275/3 before tax, taxed 55/3, with 55/3 VAT payable. */
  lemma DefaultScenario()
    ensures var r := CalculateProfit(DefaultInputs);
      && r.effectiveSalesPrice == 500.0
      && r.outputVat == 250.0 / 3.0
      && r.totalInputVat == 65.0
      && r.totalExpensesExVat == 325.0
      && r.grossProfit == 275.0 / 3.0
      && r.incomeTax == 55.0 / 3.0
      && r.netProfit == 220.0 / 3.0
      && r.vatPayable == 55.0 / 3.0 && r.vatCarryForward == 0.0
      && r.profitMargin == 44.0 / 3.0
  {
  }
}
