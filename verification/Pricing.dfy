/** Cost of a call in exact decimals, rounded up to a micro-dollar and capped at the column maximum. */
module Pricing {
  import opened Wrappers
  import opened Ledger
  import opened Decimals

  datatype PricingError = UnknownModel | InvalidCost

  /** Rates in dollars per million tokens, which is micro-dollars per token. */
  datatype ModelPricing = ModelPricing(provider: string, model: string, inputRate: Dec, outputRate: Dec)

  /** The rates of the built-in catalog. */
  const CATALOG: seq<ModelPricing> := [
    ModelPricing("mock", "mock-small", Dec(1, -2), Dec(2, -2)),
    ModelPricing("mock", "mock-large", Dec(5, -2), Dec(10, -2)),
    ModelPricing("openai", "gpt-5-mini", Dec(25, -2), Dec(200, -2))
  ]

  /** Decimal places up to which a rate is priced exactly; the catalog uses two. */
  const MAX_RATE_PLACES: int := 16

  predicate PricesExactly(p: ModelPricing) {
    && -MAX_RATE_PLACES <= p.inputRate.exp <= 0
    && -MAX_RATE_PLACES <= p.outputRate.exp <= 0
  }

  lemma CatalogPricesExactly()
    ensures forall i | 0 <= i < |CATALOG| :: PricesExactly(CATALOG[i])
  {
  }

  // ---------------------------------------------------------------- the decimal computation

  function RoundCost(d: Dec): Result<Dec, PricingError> {
    var rounded := QuantizeCeiling(d);
    if rounded.None? || rounded.value.coeff > MAX_AMOUNT then Err(InvalidCost) else Ok(rounded.value)
  }

  function TokenCost(tokens: nat, rate: Dec): Option<Dec> {
    var product := Multiply(Dec(tokens, 0), rate);
    if product.None? then None else PerMillion(product.value)
  }

  function CalculateCost(p: ModelPricing, promptTokens: nat, completionTokens: nat): Result<Dec, PricingError> {
    var input := TokenCost(promptTokens, p.inputRate);
    var output := TokenCost(completionTokens, p.outputRate);
    if input.None? || output.None? then Err(InvalidCost) else
      var total := Add(input.value, output.value);
      if total.None? then Err(InvalidCost) else RoundCost(total.value)
  }

  // ---------------------------------------------------------------- what it means

  const SCALE: nat := Pow10(MAX_RATE_PLACES)

  /** tokens at a rate, exactly, in units of 10^-16 micro-dollars. */
  function Units(tokens: nat, rate: Dec): nat
    requires -MAX_RATE_PLACES <= rate.exp
  {
    tokens * (rate.coeff * Pow10(MAX_RATE_PLACES + rate.exp))
  }

  function ExactUnits(p: ModelPricing, promptTokens: nat, completionTokens: nat): nat
    requires PricesExactly(p)
  {
    Units(promptTokens, p.inputRate) + Units(completionTokens, p.outputRate)
  }

  /** The exact cost, rounded up to whole micro-dollars. */
  function Cost(p: ModelPricing, promptTokens: nat, completionTokens: nat): nat
    requires PricesExactly(p)
  {
    CeilDiv(ExactUnits(p, promptTokens, completionTokens), SCALE)
  }

  /** The product of a token count and a rate, then the division, on its exact coefficient c. */
  function ScaledCost(c: nat, exp: int): Option<Dec> {
    var product := Fix(Dec(c, exp));
    if product.None? then None else PerMillion(product.value)
  }

  lemma TokenCostScales(tokens: nat, rate: Dec)
    ensures TokenCost(tokens, rate) == ScaledCost(tokens * rate.coeff, rate.exp)
  {
  }

  lemma SmallTokenCostIsExact(c: nat, exp: int)
    requires exp <= 0 && c < Pow10(PRECISION)
    ensures ScaledCost(c, exp) == Some(Dec(c, exp - 6))
  {
    FixIsExact(Dec(c, exp));
    FixIsExact(Dec(c, exp - 6));
  }

  lemma LargeTokenCostStaysLarge(c: nat, exp: int)
    requires -MAX_RATE_PLACES <= exp <= 0 && c >= Pow10(PRECISION)
    ensures ScaledCost(c, exp).Some? ==> AtLeast(ScaledCost(c, exp).value, 6)
  {
    if ScaledCost(c, exp).Some? {
      Pow10Monotone(12 - exp, PRECISION);
      FixKeepsAtLeast(Dec(c, exp), 12);
      var product := Fix(Dec(c, exp)).value;
      FixKeepsAtLeast(Dec(product.coeff, product.exp - 6), 6);
    }
  }

  lemma UnitsIs(tokens: nat, rate: Dec)
    requires -MAX_RATE_PLACES <= rate.exp <= 0
    ensures Units(tokens, rate) == (tokens * rate.coeff) * Pow10(MAX_RATE_PLACES + rate.exp)
    ensures Units(tokens, rate) >= tokens * rate.coeff
  {
    ScaleUp(tokens * rate.coeff, Pow10(MAX_RATE_PLACES + rate.exp));
  }

  /** Ten to the 28 units is a million dollars and a micro-dollar more than the column holds. */
  lemma ManyUnitsCostTooMuch(units: nat)
    requires units >= Pow10(PRECISION)
    ensures CeilDiv(units, SCALE) > MAX_AMOUNT
  {
    Pow10Adds(MAX_RATE_PLACES, 12);
    assert Pow10(12) == 1_000_000_000_000;
    CancelLess(SCALE, Pow10(12), CeilDiv(units, SCALE) + 1) by {
      Distribute(SCALE, CeilDiv(units, SCALE), 1);
    }
  }

  /** The two exact token costs, aligned and added, are the exact units at a larger quantum. */
  lemma SumIsExact(x: Dec, y: Dec)
    requires -22 <= x.exp <= -6 && -22 <= y.exp <= -6
    ensures var e := MinExp(x, y);
            (Aligned(x, e) + Aligned(y, e)) * Pow10(e + 22) == x.coeff * Pow10(x.exp + 22) + y.coeff * Pow10(y.exp + 22)
  {
    var e := MinExp(x, y);
    Pow10Adds(x.exp - e, e + 22);
    Pow10Adds(y.exp - e, e + 22);
    Regroup(x.coeff, Pow10(x.exp - e), y.coeff, Pow10(y.exp - e), Pow10(e + 22));
  }

  lemma Regroup(a: nat, i: nat, b: nat, j: nat, k: nat)
    ensures (a * i + b * j) * k == a * (i * k) + b * (j * k)
  {
  }

  lemma CeilDivAtMost(s: nat, k: nat)
    requires k > 0
    ensures CeilDiv(s, k) <= s
  {
    var below: int := CeilDiv(s, k) - 1;
    Distribute(k, CeilDiv(s, k), -1);
    ScaleUp(s, k);
    CancelLess(k, below, s);
  }

  /** Rounding the exact sum up at 6 places is rounding its units up to a micro-dollar. */
  lemma RoundedSum(s: nat, e: int)
    requires -22 <= e <= -6 && s < Pow10(PRECISION)
    ensures QuantizeCeiling(Dec(s, e)) == Some(Dec(CeilDiv(s * Pow10(e + 22), SCALE), -6))
  {
    var k := Pow10(-6 - e);
    RoundedCoefficient(s, e);
    CeilDivAtMost(s, k);
    FewDigits(CeilDiv(s, k), PRECISION);
    if e == -6 {
      WholeIsItself(s);
    }
  }

  lemma WholeIsItself(s: nat)
    ensures s * Pow10(0) == s && CeilDiv(s, Pow10(0)) == s
  {
    CeilDivIs(s, 1, s);
  }

  lemma RoundedCoefficient(s: nat, e: int)
    requires -22 <= e <= -6
    ensures CeilDiv(s * Pow10(e + 22), SCALE) == CeilDiv(s, Pow10(-6 - e))
  {
    Pow10Adds(-6 - e, e + 22);
    CeilDivCancels(s, Pow10(-6 - e), Pow10(e + 22));
  }

  /**
  Decimal exactness: for every rate of up to 16 places and all token counts, however large, the
  28-digit computation returns exactly the mathematical ceiling when that fits the column and
  raises otherwise.
  */
  lemma CostIsExactCeiling(p: ModelPricing, promptTokens: nat, completionTokens: nat)
    requires PricesExactly(p)
    ensures var exact := Cost(p, promptTokens, completionTokens);
            CalculateCost(p, promptTokens, completionTokens) ==
              if exact <= MAX_AMOUNT then Ok(Dec(exact, -6)) else Err(InvalidCost)
  {
    var a, b := promptTokens * p.inputRate.coeff, completionTokens * p.outputRate.coeff;
    var units := ExactUnits(p, promptTokens, completionTokens);
    TokenCostScales(promptTokens, p.inputRate);
    TokenCostScales(completionTokens, p.outputRate);
    UnitsIs(promptTokens, p.inputRate);
    UnitsIs(completionTokens, p.outputRate);
    ScaledCostsRound(a, p.inputRate.exp, b, p.outputRate.exp, units);
  }

  /**
  The same with every rate at its own tokens, written out: prompt tokens at the input rate and
  completion tokens at the output rate, in units of 10^-16 micro-dollars.
  */
  lemma EachRateToItsTokens(p: ModelPricing, promptTokens: nat, completionTokens: nat)
    requires -16 <= p.inputRate.exp <= 0 && -16 <= p.outputRate.exp <= 0
    ensures var x := promptTokens * p.inputRate.coeff * Pow10(16 + p.inputRate.exp)
                     + completionTokens * p.outputRate.coeff * Pow10(16 + p.outputRate.exp);
            match CalculateCost(p, promptTokens, completionTokens)
            case Ok(d) => && d.exp == -6 && d.coeff <= 999_999_999_999
                          && (d.coeff - 1) * Pow10(16) < x <= d.coeff * Pow10(16) && x <= 999_999_999_999 * Pow10(16)
            case Err(_) => x > 999_999_999_999 * Pow10(16)
  {
    CostIsExactCeiling(p, promptTokens, completionTokens);
    UnitsIs(promptTokens, p.inputRate);
    UnitsIs(completionTokens, p.outputRate);
    CeilingBounds(ExactUnits(p, promptTokens, completionTokens), Pow10(16));
  }

  /** ... and of the rounded cost itself. */
  lemma CostRoundsUp(p: ModelPricing, promptTokens: nat, completionTokens: nat, x: nat)
    requires -16 <= p.inputRate.exp <= 0 && -16 <= p.outputRate.exp <= 0
    requires x == promptTokens * p.inputRate.coeff * Pow10(16 + p.inputRate.exp)
                  + completionTokens * p.outputRate.coeff * Pow10(16 + p.outputRate.exp)
    ensures (Cost(p, promptTokens, completionTokens) - 1) * Pow10(16) < x <= Cost(p, promptTokens, completionTokens) * Pow10(16)
    ensures x <= 999_999_999_999 * Pow10(16) <==> Cost(p, promptTokens, completionTokens) <= MAX_AMOUNT
  {
    UnitsIs(promptTokens, p.inputRate);
    UnitsIs(completionTokens, p.outputRate);
    CeilingBounds(ExactUnits(p, promptTokens, completionTokens), Pow10(16));
  }

  lemma CeilingBounds(n: nat, d: nat)
    requires d > 0
    ensures (CeilDiv(n, d) - 1) * d < n <= CeilDiv(n, d) * d
    ensures CeilDiv(n, d) <= 999_999_999_999 <==> n <= 999_999_999_999 * d
  {
    var c: int := CeilDiv(n, d);
    Distribute(d, c, -1);
    if c > 999_999_999_999 {
      MultiplyMonotone(999_999_999_999, c - 1, d);
    } else {
      MultiplyMonotone(c, 999_999_999_999, d);
    }
  }

  /** n million prompt tokens alone cost n input rates, rounded up to a micro-dollar, whenever that is storable. */
  lemma MillionsOfPromptTokens(p: ModelPricing, n: nat)
    requires -16 <= p.inputRate.exp <= 0 && -16 <= p.outputRate.exp <= 0
    ensures match CalculateCost(p, n * 1_000_000, 0)
            case Ok(d) => d.exp == -6 && IsRates(d.coeff, n, p.inputRate)
            case Err(_) => n * p.inputRate.coeff * Pow10(22 + p.inputRate.exp) > 999_999_999_999 * Pow10(16)
  {
    NoTokens(p.outputRate);
    Millions(n, p.inputRate);
    PricesAt(p, n * 1_000_000, 0, n * p.inputRate.coeff * Pow10(22 + p.inputRate.exp));
    if CalculateCost(p, n * 1_000_000, 0).Ok? {
      RatesReached(n, p.inputRate, CalculateCost(p, n * 1_000_000, 0).value.coeff);
    }
  }

  /** ... and completion tokens alone cost output rates. */
  lemma MillionsOfCompletionTokens(p: ModelPricing, n: nat)
    requires -16 <= p.inputRate.exp <= 0 && -16 <= p.outputRate.exp <= 0
    ensures match CalculateCost(p, 0, n * 1_000_000)
            case Ok(d) => d.exp == -6 && IsRates(d.coeff, n, p.outputRate)
            case Err(_) => n * p.outputRate.coeff * Pow10(22 + p.outputRate.exp) > 999_999_999_999 * Pow10(16)
  {
    NoTokens(p.inputRate);
    Millions(n, p.outputRate);
    PricesAt(p, 0, n * 1_000_000, n * p.outputRate.coeff * Pow10(22 + p.outputRate.exp));
    if CalculateCost(p, 0, n * 1_000_000).Ok? {
      RatesReached(n, p.outputRate, CalculateCost(p, 0, n * 1_000_000).value.coeff);
    }
  }

  lemma PricesAt(p: ModelPricing, i: nat, o: nat, x: nat)
    requires -16 <= p.inputRate.exp <= 0 && -16 <= p.outputRate.exp <= 0
    requires x == i * p.inputRate.coeff * Pow10(16 + p.inputRate.exp) + o * p.outputRate.coeff * Pow10(16 + p.outputRate.exp)
    ensures match CalculateCost(p, i, o)
            case Ok(d) => d.exp == -6 && (d.coeff - 1) * Pow10(16) < x <= d.coeff * Pow10(16)
            case Err(_) => x > 999_999_999_999 * Pow10(16)
  {
    EachRateToItsTokens(p, i, o);
  }

  /** cost is n times the rate in dollars, rounded up to six places: exactly it for a rate of at most six. */
  predicate IsRates(cost: nat, n: nat, rate: Dec)
    requires -16 <= rate.exp <= 0
  {
    && (cost - 1) * Pow10(16) < n * rate.coeff * Pow10(22 + rate.exp) <= cost * Pow10(16)
    && (rate.exp >= -6 ==> cost == n * rate.coeff * Pow10(6 + rate.exp))
  }

  lemma NoTokens(rate: Dec)
    requires -16 <= rate.exp <= 0
    ensures 0 * rate.coeff * Pow10(16 + rate.exp) == 0
  {
  }

  lemma Millions(n: nat, rate: Dec)
    requires -16 <= rate.exp <= 0
    ensures n * 1_000_000 * rate.coeff * Pow10(16 + rate.exp) == n * rate.coeff * Pow10(22 + rate.exp)
  {
    Pow10Adds(6, 16 + rate.exp);
    assert Pow10(6) == 1_000_000;
    Commute(n, Pow10(6), rate.coeff, Pow10(16 + rate.exp));
  }

  lemma Commute(n: nat, k: nat, c: nat, e: nat)
    ensures n * k * c * e == n * c * (k * e)
  {
    assert n * k * c == n * c * k;
  }

  lemma RatesReached(n: nat, rate: Dec, cost: nat)
    requires -16 <= rate.exp <= 0
    requires (cost - 1) * Pow10(16) < n * rate.coeff * Pow10(22 + rate.exp) <= cost * Pow10(16)
    ensures IsRates(cost, n, rate)
  {
    if rate.exp >= -6 {
      WholeRates(n * rate.coeff, 6 + rate.exp, cost);
    }
  }

  lemma WholeRates(m: nat, e: nat, cost: nat)
    requires (cost - 1) * Pow10(16) < m * Pow10(e + 16) <= cost * Pow10(16)
    ensures cost == m * Pow10(e)
  {
    Pow10Adds(e, 16);
    Associate(m, Pow10(e), Pow10(16));
    Squeeze(cost, m * Pow10(e), Pow10(16));
  }

  lemma Associate(a: nat, x: nat, y: nat)
    ensures a * (x * y) == a * x * y
  {
  }

  lemma Squeeze(cost: nat, whole: nat, k: nat)
    requires k > 0
    ensures (cost - 1) * k < whole * k <= cost * k ==> cost == whole
  {
    if (cost - 1) * k < whole * k <= cost * k {
      CancelLess(k, cost - 1, whole);
      if whole > cost {
        MultiplyMonotone(cost + 1, whole, k);
        Distribute(k, cost, 1);
      }
    }
  }

  /** The same, on the two exact coefficients. */
  lemma ScaledCostsRound(a: nat, i: int, b: nat, o: int, units: nat)
    requires -MAX_RATE_PLACES <= i <= 0 && -MAX_RATE_PLACES <= o <= 0
    requires units == a * Pow10(MAX_RATE_PLACES + i) + b * Pow10(MAX_RATE_PLACES + o)
    ensures var input, output := ScaledCost(a, i), ScaledCost(b, o);
            var c := CeilDiv(units, SCALE);
            (if input.None? || output.None? || Add(input.value, output.value).None? then Err(InvalidCost)
             else RoundCost(Add(input.value, output.value).value)) ==
              if c <= MAX_AMOUNT then Ok(Dec(c, -6)) else Err(InvalidCost)
  {
    if a < Pow10(PRECISION) && b < Pow10(PRECISION) {
      SmallTokenCostIsExact(a, i);
      SmallTokenCostIsExact(b, o);
      SmallTokenCosts(Dec(a, i - 6), Dec(b, o - 6), units);
    } else {
      ScaleUp(a, Pow10(MAX_RATE_PLACES + i));
      ScaleUp(b, Pow10(MAX_RATE_PLACES + o));
      ManyUnitsCostTooMuch(units);
      if a >= Pow10(PRECISION) {
        LargeTokenCostStaysLarge(a, i);
      } else {
        LargeTokenCostStaysLarge(b, o);
      }
      LargeTokenCosts(ScaledCost(a, i), ScaledCost(b, o));
    }
  }

  lemma SmallTokenCosts(x: Dec, y: Dec, units: nat)
    requires -22 <= x.exp <= -6 && -22 <= y.exp <= -6
    requires units == x.coeff * Pow10(x.exp + 22) + y.coeff * Pow10(y.exp + 22)
    ensures var c := CeilDiv(units, SCALE);
            (if Add(x, y).None? then Err(InvalidCost) else RoundCost(Add(x, y).value)) ==
              if c <= MAX_AMOUNT then Ok(Dec(c, -6)) else Err(InvalidCost)
  {
    var e := MinExp(x, y);
    var s := Aligned(x, e) + Aligned(y, e);
    SumIsExact(x, y);
    SumIsRounded(s, e, units);
  }

  lemma SumIsRounded(s: nat, e: int, units: nat)
    requires -22 <= e <= -6 && units == s * Pow10(e + 22)
    ensures var c := CeilDiv(units, SCALE);
            (if Fix(Dec(s, e)).None? then Err(InvalidCost) else RoundCost(Fix(Dec(s, e)).value)) ==
              if c <= MAX_AMOUNT then Ok(Dec(c, -6)) else Err(InvalidCost)
  {
    if s < Pow10(PRECISION) {
      FixIsExact(Dec(s, e));
      RoundedSum(s, e);
    } else {
      LargeSumIsRejected(s, e, units);
    }
  }

  lemma LargeSumIsRejected(s: nat, e: int, units: nat)
    requires -22 <= e <= -6 && s >= Pow10(PRECISION) && units == s * Pow10(e + 22)
    ensures CeilDiv(units, SCALE) > MAX_AMOUNT
    ensures Fix(Dec(s, e)).None? || RoundCost(Fix(Dec(s, e)).value) == Err(InvalidCost)
  {
    ScaleUp(s, Pow10(e + 22));
    ManyUnitsCostTooMuch(units);
    Pow10Monotone(6 - e, PRECISION);
    if Fix(Dec(s, e)).Some? {
      FixKeepsAtLeast(Dec(s, e), 6);
      LargeIsRejected(Fix(Dec(s, e)).value);
    }
  }

  lemma LargeTokenCosts(input: Option<Dec>, output: Option<Dec>)
    requires input.Some? && output.Some? ==> AtLeast(input.value, 6) || AtLeast(output.value, 6)
    ensures input.None? || output.None? || Add(input.value, output.value).None?
            || RoundCost(Add(input.value, output.value).value) == Err(InvalidCost)
  {
    if input.Some? && output.Some? && Add(input.value, output.value).Some? {
      AddKeepsAtLeast(input.value, output.value, 6);
      LargeIsRejected(Add(input.value, output.value).value);
    }
  }

  lemma LargeIsRejected(d: Dec)
    requires AtLeast(d, 6)
    ensures RoundCost(d) == Err(InvalidCost)
  {
    if QuantizeCeiling(d).Some? {
      QuantizeLarge(d);
    }
  }

  // ---------------------------------------------------------------- how costs compare and add

  lemma UnitsAdd(m: nat, n: nat, rate: Dec)
    requires -MAX_RATE_PLACES <= rate.exp
    ensures Units(m + n, rate) == Units(m, rate) + Units(n, rate)
  {
  }

  lemma ExactUnitsAdd(p: ModelPricing, i: nat, o: nat, i': nat, o': nat)
    requires PricesExactly(p)
    ensures ExactUnits(p, i + i', o + o') == ExactUnits(p, i, o) + ExactUnits(p, i', o')
  {
    UnitsAdd(i, i', p.inputRate);
    UnitsAdd(o, o', p.outputRate);
  }

  /** More tokens of either kind never cost less. */
  lemma CostIsMonotone(p: ModelPricing, i: nat, o: nat, i': nat, o': nat)
    requires PricesExactly(p) && i <= i' && o <= o'
    ensures ExactUnits(p, i, o) <= ExactUnits(p, i', o')
    ensures Cost(p, i, o) <= Cost(p, i', o')
  {
    ExactUnitsAdd(p, i, o, i' - i, o' - o);
    CeilDivMonotone(ExactUnits(p, i, o), ExactUnits(p, i', o'), SCALE);
  }

  /** Splitting a call never makes it cheaper, and costs at most one more micro-dollar. */
  lemma CostSplits(p: ModelPricing, i: nat, o: nat, i': nat, o': nat)
    requires PricesExactly(p)
    ensures Cost(p, i + i', o + o') <= Cost(p, i, o) + Cost(p, i', o') <= Cost(p, i + i', o + o') + 1
  {
    ExactUnitsAdd(p, i, o, i', o');
    CeilDivSplits(ExactUnits(p, i, o), ExactUnits(p, i', o'), SCALE);
  }

  lemma CeilDivSplits(m: nat, n: nat, d: nat)
    requires d > 0
    ensures CeilDiv(m + n, d) <= CeilDiv(m, d) + CeilDiv(n, d) <= CeilDiv(m + n, d) + 1
  {
    var x: int, y: int, z: int := CeilDiv(m, d), CeilDiv(n, d), CeilDiv(m + n, d);
    Distribute(d, x, y);
    Distribute(d, z, -1);
    CancelLess(d, z - 1, x + y);
    Distribute(d, x + y, -2);
    CancelLess(d, x + y - 2, z);
  }

  // ---------------------------------------------------------------- the validators downstream

  /** Value in micro-dollars of a decimal of at most six places. */
  function Micros(d: Dec): nat
    requires d.exp >= -6
  {
    d.coeff * Pow10(d.exp + 6)
  }

  /** settlement._validate_cost with zero allowed, and idempotency._validate_reserved_cost. */
  predicate ValidStoredCost(d: Dec) {
    d.exp >= -6 && Micros(d) <= MAX_AMOUNT
  }

  /** budget._validate_monetary_amount. */
  predicate ValidBudgetAmount(d: Dec) {
    d.coeff > 0 && ValidStoredCost(d)
  }

  /** What pricing returns is storable, and reservable unless it is zero. */
  lemma PricedAmountsAreValid(p: ModelPricing, promptTokens: nat, completionTokens: nat)
    requires CalculateCost(p, promptTokens, completionTokens).Ok?
    ensures var d := CalculateCost(p, promptTokens, completionTokens).value;
            && d.exp == -6 && Micros(d) == d.coeff
            && ValidStoredCost(d)
            && (d.coeff > 0 ==> ValidBudgetAmount(d))
  {
  }

  /** reserved - actual in decimals, for a stored reservation and any stored cost. */
  lemma RefundIsValid(reserved: Dec, actual: Dec)
    requires reserved.exp == -6 && ValidStoredCost(reserved) && ValidStoredCost(actual)
    requires Micros(actual) < Micros(reserved)
    ensures Aligned(reserved, MinExp(reserved, actual)) >= Aligned(actual, MinExp(reserved, actual))
    ensures var refund := Subtract(reserved, actual);
            refund.Some? && ValidBudgetAmount(refund.value)
            && Micros(refund.value) == RefundDue(Micros(reserved), Micros(actual))
  {
    var due := Micros(reserved) - Micros(actual);
    Pow10Monotone(12, PRECISION);
    assert Pow10(12) == 1_000_000_000_000;
    FixIsExact(Dec(due, -6));
  }

  // ---------------------------------------------------------------- catalog and maximum

  function Key(p: ModelPricing): (string, string) {
    (p.provider, p.model)
  }

  /** The catalog maps exactly the keys of its entries, each to its own entry; a repeated key raises. */
  method BuildPricingCatalog(entries: seq<ModelPricing>) returns (r: Result<map<(string, string), ModelPricing>, PricingError>)
    ensures r.Ok? <==> forall i, j | 0 <= i < j < |entries| ::
                         entries[i].provider != entries[j].provider || entries[i].model != entries[j].model
    ensures r.Ok? ==> forall k | k in r.value ::
                        exists i :: 0 <= i < |entries| && k == (entries[i].provider, entries[i].model)
    ensures r.Ok? ==> forall i | 0 <= i < |entries| ::
                        (entries[i].provider, entries[i].model) in r.value
                        && r.value[(entries[i].provider, entries[i].model)] == entries[i]
  {
    var catalog: map<(string, string), ModelPricing> := map[];
    for n := 0 to |entries|
      invariant forall i, j | 0 <= i < j < n :: Key(entries[i]) != Key(entries[j])
      invariant forall k :: k in catalog <==> exists i :: 0 <= i < n && Key(entries[i]) == k
      invariant forall i | 0 <= i < n :: Key(entries[i]) in catalog && catalog[Key(entries[i])] == entries[i]
    {
      if Key(entries[n]) in catalog {
        return Err(InvalidCost);
      }
      catalog := catalog[Key(entries[n]) := entries[n]];
    }
    return Ok(catalog);
  }

  datatype CostEstimate = CostEstimate(pricing: ModelPricing, promptTokens: nat, maxTokens: nat)

  function EstimateCost(e: CostEstimate): Result<Dec, PricingError> {
    if e.maxTokens < 1 then Err(InvalidCost) else CalculateCost(e.pricing, e.promptTokens, e.maxTokens)
  }

  /** max() of the estimates, all at exponent -6. */
  method Largest(costs: seq<Dec>) returns (d: Dec)
    requires costs != []
    ensures d in costs
    ensures forall i | 0 <= i < |costs| :: costs[i].coeff <= d.coeff
  {
    d := costs[0];
    for n := 1 to |costs|
      invariant d in costs
      invariant forall i | 0 <= i < n :: costs[i].coeff <= d.coeff
    {
      if costs[n].coeff > d.coeff {
        d := costs[n];
      }
    }
  }

  /** The largest estimate; an empty list or any failing estimate raises. */
  method SelectMaxEstimatedCost(candidates: seq<CostEstimate>) returns (r: Result<Dec, PricingError>)
    ensures r.Ok? <==> candidates != [] && forall c | c in candidates ::
                         c.maxTokens >= 1 && CalculateCost(c.pricing, c.promptTokens, c.maxTokens).Ok?
    ensures r.Ok? ==> exists c :: c in candidates && CalculateCost(c.pricing, c.promptTokens, c.maxTokens) == r
    ensures r.Ok? ==> forall c | c in candidates :: CalculateCost(c.pricing, c.promptTokens, c.maxTokens).value.coeff <= r.value.coeff
  {
    if candidates == [] {
      return Err(InvalidCost);
    }
    var estimates: seq<Dec> := [];
    for n := 0 to |candidates|
      invariant |estimates| == n
      invariant forall i | 0 <= i < n :: EstimateCost(candidates[i]) == Ok(estimates[i])
    {
      var next := EstimateCost(candidates[n]);
      if next.Err? {
        return next;
      }
      estimates := estimates + [next.value];
    }
    var largest := Largest(estimates);
    return Ok(largest);
  }
}
