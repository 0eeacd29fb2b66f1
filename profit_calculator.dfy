/**
 * The profit-calculation engine of the ProfitCalculator screen.
 *
 * The screen keeps nine numeric inputs (product cost in lira, freight in
 * euros, the two exchange rates, the selling price per ton in kronor, the
 * tonnage, the KDV rate, the income-tax rate and the target net profit per
 * ton).  On every render it derives a fixed chain of values from them: the
 * landed cost in lira and in kronor, the sale total, the KDV amount, gross
 * profit, income tax and net profit, and the selling price per ton that
 * would yield the target net profit.  Two event handlers replace the inputs
 * record: one field at a time from the form, or both exchange rates after a
 * successful refresh.
 *
 * All numbers are modelled as exact `real`s; the divisions that would give
 * Infinity or NaN in the JavaScript component are guarded by preconditions.
 */
module ProfitCalculator {

  datatype Option<T> = None | Some(value: T)

  /* ---------------------------------------------------------------------- */
  /*  Inputs                                                                 */
  /* ---------------------------------------------------------------------- */

  /** The nine editable fields of the form. */
  datatype Inputs = Inputs(
    productCostTL: real,          // product cost, lira
    freightEuro: real,            // freight, euros
    euroToTL: real,               // lira per euro
    sekRate: real,                // lira per krona
    sellingPriceSEK: real,        // selling price per ton, kronor, KDV excluded
    tonnage: real,                // tons sold
    kdvRate: real,                // KDV (VAT) rate, percent
    taxRate: real,                // income-tax rate, percent
    targetNetProfitPerTon: real)  // wanted net profit per ton, kronor

  /** The names the form gives its fields; `handleChange` is keyed by them. */
  datatype Field =
    | ProductCostTL | FreightEuro | EuroToTL | SekRate | SellingPriceSEK
    | Tonnage | KdvRate | TaxRate | TargetNetProfitPerTon

  /** The value of field `f` in `i` (the source's `inputs[name]`). */
  function Get(i: Inputs, f: Field): real
  {
    match f
    case ProductCostTL => i.productCostTL
    case FreightEuro => i.freightEuro
    case EuroToTL => i.euroToTL
    case SekRate => i.sekRate
    case SellingPriceSEK => i.sellingPriceSEK
    case Tonnage => i.tonnage
    case KdvRate => i.kdvRate
    case TaxRate => i.taxRate
    case TargetNetProfitPerTon => i.targetNetProfitPerTon
  }

  /** The record the screen starts with. */
  const InitialInputs: Inputs :=
    Inputs(600000.0, 4500.0, 45.0, 4.11, 11500.0, 20.0, 12.0, 22.0, 1000.0)

  /* ---------------------------------------------------------------------- */
  /*  handleChange: replace one named field                                  */
  /* ---------------------------------------------------------------------- */

  /** The record after the form reports value `v` for field `f`. */
  function HandleChange(i: Inputs, f: Field, v: real): (r: Inputs)
    ensures Get(r, f) == v
    ensures forall g :: g != f ==> Get(r, g) == Get(i, g)
  {
    match f
    case ProductCostTL => i.(productCostTL := v)
    case FreightEuro => i.(freightEuro := v)
    case EuroToTL => i.(euroToTL := v)
    case SekRate => i.(sekRate := v)
    case SellingPriceSEK => i.(sellingPriceSEK := v)
    case Tonnage => i.(tonnage := v)
    case KdvRate => i.(kdvRate := v)
    case TaxRate => i.(taxRate := v)
    case TargetNetProfitPerTon => i.(targetNetProfitPerTon := v)
  }

  /** Re-entering a field's current value leaves the record as it was. */
  lemma HandleChangeSameValue(i: Inputs, f: Field)
    ensures HandleChange(i, f, Get(i, f)) == i
  {
  }

  /** Of two edits to the same field only the later one is kept. */
  lemma HandleChangeLastWins(i: Inputs, f: Field, v: real, w: real)
    ensures HandleChange(HandleChange(i, f, v), f, w) == HandleChange(i, f, w)
  {
  }

  /** Edits to two different fields may be applied in either order. */
  lemma HandleChangeCommutes(i: Inputs, f: Field, v: real, g: Field, w: real)
    requires f != g
    ensures HandleChange(HandleChange(i, f, v), g, w) == HandleChange(HandleChange(i, g, w), f, v)
  {
  }

  /* ---------------------------------------------------------------------- */
  /*  fetchRates: replace both exchange rates, or nothing                    */
  /* ---------------------------------------------------------------------- */

  /**
   * `x.toFixed(2)` read back with `parseFloat`, on exact reals: the nearest
   * multiple of 0.01, ties going away from zero (toFixed rounds the
   * magnitude and puts the sign in front).
   */
  function ToFixed2(x: real): (r: real)
    ensures (r * 100.0).Floor as real == r * 100.0
    ensures x >= 0.0 ==> -0.005 < r - x <= 0.005
    ensures x < 0.0 ==> -0.005 <= r - x < 0.005
  {
    if x < 0.0 then
      var m := RoundMagnitude2(-x);
      NegatedHundredths(m);
      -m
    else
      RoundMagnitude2(x)
  }

  /** Negating a whole number of hundredths gives a whole number of hundredths. */
  lemma NegatedHundredths(m: real)
    requires (m * 100.0).Floor as real == m * 100.0
    ensures (-m * 100.0).Floor as real == -m * 100.0
  {
    var n := (m * 100.0).Floor;
    assert -m * 100.0 == (-n) as real;
  }

  /** The non-negative half of `ToFixed2`: round half up to two decimals. */
  function RoundMagnitude2(x: real): (r: real)
    requires x >= 0.0
    ensures r >= 0.0
    ensures (r * 100.0).Floor as real == r * 100.0
    ensures -0.005 < r - x <= 0.005
  {
    ((x * 100.0 + 0.5).Floor as real) / 100.0
  }

  /** A value that already has at most two decimals is not changed. */
  lemma ToFixed2OfTwoDecimals(x: real)
    requires (x * 100.0).Floor as real == x * 100.0
    ensures ToFixed2(x) == x
  {
    var n := (x * 100.0).Floor;
    if x < 0.0 {
      assert (-x * 100.0 + 0.5).Floor == -n;
    } else {
      assert (x * 100.0 + 0.5).Floor == n;
    }
  }

  /** Rounding twice is rounding once. */
  lemma ToFixed2Idempotent(x: real)
    ensures ToFixed2(ToFixed2(x)) == ToFixed2(x)
  {
    ToFixed2OfTwoDecimals(ToFixed2(x));
  }

  /**
   * The inputs after a rate refresh.  `eurToTry` and `sekToTry` are the two
   * fetched rates, `None` when a request, its JSON or its `rates.TRY` entry
   * failed; any failure lands in the handler's catch and keeps the record.
   */
  function ApplyRates(i: Inputs, eurToTry: Option<real>, sekToTry: Option<real>): (r: Inputs)
    ensures eurToTry.Some? && sekToTry.Some? ==>
      && Get(r, EuroToTL) == ToFixed2(eurToTry.value)
      && Get(r, SekRate) == ToFixed2(sekToTry.value)
      && forall g :: g != EuroToTL && g != SekRate ==> Get(r, g) == Get(i, g)
    ensures eurToTry.None? || sekToTry.None? ==> r == i
  {
    match (eurToTry, sekToTry)
    case (Some(eur), Some(sek)) =>
      i.(euroToTL := ToFixed2(eur), sekRate := ToFixed2(sek))
    case _ => i
  }

  /** A successful refresh is the same as editing the two rate fields. */
  lemma ApplyRatesIsTwoEdits(i: Inputs, eur: real, sek: real)
    ensures ApplyRates(i, Some(eur), Some(sek))
         == HandleChange(HandleChange(i, EuroToTL, ToFixed2(eur)), SekRate, ToFixed2(sek))
  {
  }

  /** Repeating a successful refresh with the same fetched rates changes nothing the second time. */
  lemma ApplyRatesIdempotent(i: Inputs, eur: real, sek: real)
    ensures var once := ApplyRates(i, Some(eur), Some(sek));
            ApplyRates(once, Some(eur), Some(sek)) == once
  {
  }

  /* ---------------------------------------------------------------------- */
  /*  The derived-value chain                                                */
  /* ---------------------------------------------------------------------- */

  /** Surcharges on the product cost, as fractions of it. */
  const CustomsRate: real := 0.06
  const InsuranceRate: real := 0.01
  const LabelDepotRate: real := 0.01

  /** The cost side, in lira and in kronor. */
  datatype Costs = Costs(
    freightTL: real,
    totalTL: real,
    customsTL: real,
    insuranceTL: real,
    labelDepotTL: real,
    fullCostTL: real,
    fullCostSEK: real,
    costPerTonSEK: real)

  /** The sale side, in kronor. */
  datatype Sale = Sale(
    totalSellingSEK: real,
    kdvAmount: real,
    grossProfit: real,
    tax: real,
    netProfit: real)

  /** The recommendation: the price per ton that reaches the target. */
  datatype Target = Target(
    requiredGrossProfitPerTon: real,
    requiredSellingPricePerTon: real,
    requiredSellingPricePerTonWithKDV: real)

  datatype Results = Results(costs: Costs, sale: Sale, target: Target)

  /** The share of gross profit left after income tax. */
  function AfterTax(i: Inputs): real
  {
    1.0 - i.taxRate / 100.0
  }

  /** What the chain needs to stay finite: no zero divisor anywhere. */
  predicate Computable(i: Inputs)
  {
    i.sekRate != 0.0 && i.tonnage != 0.0 && i.taxRate != 100.0
  }

  /** Landed cost: freight, surcharges, conversion to kronor, per ton. */
  function CostsOf(i: Inputs): (c: Costs)
    requires i.sekRate != 0.0 && i.tonnage != 0.0
    ensures c.fullCostTL == i.productCostTL * 1.08 + i.freightEuro * i.euroToTL
    ensures c.fullCostSEK * i.sekRate == c.fullCostTL
    ensures c.costPerTonSEK * i.tonnage == c.fullCostSEK
  {
    var freightTL := i.freightEuro * i.euroToTL;
    var totalTL := i.productCostTL + freightTL;
    var customsTL := i.productCostTL * CustomsRate;
    var insuranceTL := i.productCostTL * InsuranceRate;
    var labelDepotTL := i.productCostTL * LabelDepotRate;
    var fullCostTL := totalTL + customsTL + insuranceTL + labelDepotTL;
    var fullCostSEK := fullCostTL / i.sekRate;
    var costPerTonSEK := fullCostSEK / i.tonnage;
    Costs(freightTL, totalTL, customsTL, insuranceTL, labelDepotTL,
          fullCostTL, fullCostSEK, costPerTonSEK)
  }

  /** Sale total, KDV line, gross profit, income tax and net profit. */
  function SaleOf(i: Inputs, fullCostSEK: real): (s: Sale)
    ensures s.grossProfit + fullCostSEK == s.totalSellingSEK
    ensures s.tax + s.netProfit == s.grossProfit
    ensures s.netProfit == s.grossProfit * AfterTax(i)
  {
    var totalSellingSEK := i.sellingPriceSEK * i.tonnage;
    var kdvAmount := totalSellingSEK * (i.kdvRate / 100.0);
    var grossProfit := totalSellingSEK - fullCostSEK;
    var tax := grossProfit * (i.taxRate / 100.0);
    var netProfit := grossProfit - tax;
    Sale(totalSellingSEK, kdvAmount, grossProfit, tax, netProfit)
  }

  /** The target-price inversion. */
  function TargetOf(i: Inputs, costPerTonSEK: real): (t: Target)
    requires i.taxRate != 100.0
    ensures t.requiredGrossProfitPerTon * AfterTax(i) == i.targetNetProfitPerTon
    ensures (t.requiredSellingPricePerTon - costPerTonSEK) * AfterTax(i) == i.targetNetProfitPerTon
  {
    var requiredGrossProfitPerTon := i.targetNetProfitPerTon / (1.0 - i.taxRate / 100.0);
    var requiredSellingPricePerTon := costPerTonSEK + requiredGrossProfitPerTon;
    var requiredSellingPricePerTonWithKDV := requiredSellingPricePerTon * (1.0 + i.kdvRate / 100.0);
    Target(requiredGrossProfitPerTon, requiredSellingPricePerTon, requiredSellingPricePerTonWithKDV)
  }

  /** Everything the screen derives from one inputs record. */
  function Compute(i: Inputs): (r: Results)
    requires Computable(i)
    ensures r.sale.netProfit == (i.sellingPriceSEK - r.costs.costPerTonSEK) * i.tonnage * AfterTax(i)
  {
    var c := CostsOf(i);
    Results(c, SaleOf(i, c.fullCostSEK), TargetOf(i, c.costPerTonSEK))
  }

  /* ---------------------------------------------------------------------- */
  /*  Properties of the chain                                                */
  /* ---------------------------------------------------------------------- */

  /** The initial record: freight 202500 TL, full cost 850500 TL, and the displayed values. */
  lemma InitialInputsResults()
    ensures Computable(InitialInputs)
    ensures var r := Compute(InitialInputs);
      && r.costs.freightTL == 202500.0
      && r.costs.totalTL == 802500.0
      && r.costs.customsTL == 36000.0
      && r.costs.insuranceTL == 6000.0
      && r.costs.labelDepotTL == 6000.0
      && r.costs.fullCostTL == 850500.0
      && r.sale.totalSellingSEK == 230000.0
      && r.sale.kdvAmount == 27600.0
      && ToFixed2(r.costs.fullCostSEK) == 206934.31
      && ToFixed2(r.costs.costPerTonSEK) == 10346.72
      && ToFixed2(r.sale.grossProfit) == 23065.69
      && ToFixed2(r.sale.tax) == 5074.45
      && ToFixed2(r.sale.netProfit) == 17991.24
      && ToFixed2(r.target.requiredSellingPricePerTon) == 11628.77
      && ToFixed2(r.target.requiredSellingPricePerTonWithKDV) == 13024.22
  {
  }

  /**
   * The KDV amount is shown but never feeds the profit chain: changing the
   * KDV rate moves nothing on the cost side, nor gross profit, tax, net
   * profit or the KDV-exclusive recommendation.
   */
  lemma KdvIsDisplayOnly(i: Inputs, kdv: real)
    requires Computable(i)
    ensures var before, after := Compute(i), Compute(i.(kdvRate := kdv));
      && after.costs == before.costs
      && after.sale.totalSellingSEK == before.sale.totalSellingSEK
      && after.sale.grossProfit == before.sale.grossProfit
      && after.sale.tax == before.sale.tax
      && after.sale.netProfit == before.sale.netProfit
      && after.target.requiredGrossProfitPerTon == before.target.requiredGrossProfitPerTon
      && after.target.requiredSellingPricePerTon == before.target.requiredSellingPricePerTon
  {
  }

  /** Net profit moves with the selling price at the rate tonnage times the after-tax share. */
  lemma NetProfitSlope(i: Inputs, p: real, q: real)
    requires Computable(i)
    ensures Compute(i.(sellingPriceSEK := p)).sale.netProfit - Compute(i.(sellingPriceSEK := q)).sale.netProfit
         == (p - q) * i.tonnage * AfterTax(i)
  {
  }

  /**
   * Target-price round trip: selling at the recommended KDV-exclusive price
   * earns exactly the target net profit per ton on every ton.
   */
  lemma TargetPriceRoundTrip(i: Inputs)
    requires Computable(i)
    ensures var p := Compute(i).target.requiredSellingPricePerTon;
            Compute(i.(sellingPriceSEK := p)).sale.netProfit == i.targetNetProfitPerTon * i.tonnage
  {
  }

  /**
   * With a positive tonnage and a tax rate below 100%, the recommended price
   * is the least price that reaches the target: a price reaches it exactly
   * when it is at least the recommendation.
   */
  lemma RequiredPriceIsLeast(i: Inputs, p: real)
    requires Computable(i) && i.tonnage > 0.0 && i.taxRate < 100.0
    ensures Compute(i.(sellingPriceSEK := p)).sale.netProfit >= i.targetNetProfitPerTon * i.tonnage
        <==> p >= Compute(i).target.requiredSellingPricePerTon
  {
    var q := Compute(i).target.requiredSellingPricePerTon;
    TargetPriceRoundTrip(i);
    NetProfitSlope(i, p, q);
    var k := i.tonnage * AfterTax(i);
    assert k > 0.0;
    assert (p - q) * i.tonnage * AfterTax(i) == (p - q) * k;
    if p >= q {
      assert (p - q) * k >= 0.0;
    } else {
      assert (q - p) * k > 0.0;
    }
  }

  /**
   * The KDV-inclusive recommendation adds the KDV rate on top of the
   * exclusive one: it is never below it for a non-negative rate and price,
   * and per ton it adds exactly the KDV amount the sale panel would show
   * when selling at the exclusive price.
   */
  lemma KdvInclusivePrice(i: Inputs)
    requires Computable(i)
    ensures var t := Compute(i).target;
      && (i.kdvRate >= 0.0 && t.requiredSellingPricePerTon >= 0.0 ==>
            t.requiredSellingPricePerTonWithKDV >= t.requiredSellingPricePerTon)
      && (t.requiredSellingPricePerTonWithKDV - t.requiredSellingPricePerTon) * i.tonnage
           == Compute(i.(sellingPriceSEK := t.requiredSellingPricePerTon)).sale.kdvAmount
  {
  }

  /**
   * A rate refresh that succeeds changes nothing on the sale side except
   * through the full cost, and does not touch the required gross profit.
   */
  lemma RatesOnlyMoveCost(i: Inputs, eur: real, sek: real)
    requires Computable(i) && ToFixed2(sek) != 0.0
    ensures var j := ApplyRates(i, Some(eur), Some(sek));
      && Computable(j)
      && Compute(j).sale.totalSellingSEK == Compute(i).sale.totalSellingSEK
      && Compute(j).sale.kdvAmount == Compute(i).sale.kdvAmount
      && Compute(j).target.requiredGrossProfitPerTon == Compute(i).target.requiredGrossProfitPerTon
      && Compute(j).sale == SaleOf(i, Compute(j).costs.fullCostSEK)
  {
  }
}
