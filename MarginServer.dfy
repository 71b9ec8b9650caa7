/** The ReapSow-Lite margin simulator, `POST /api/simulate`: a three-stage
    validation of the two amounts (first failure reported), then profit,
    margin and hold days. */
module MarginServer {
  import opened Wrappers
  import opened JsValues
  import Strings

  /** The request body. `email` is read by the handler but never used. */
  datatype SimulationRequest = SimulationRequest(orderAmount: JsValue, supplierCost: JsValue, email: JsValue)

  /** The three validation failures, each answered with status 400. */
  datatype SimulationError = MissingFields | InvalidAmounts | CostNotBelowOrder
  {
    function Message(): string
    {
      match this
      case MissingFields => "Missing required fields: orderAmount, supplierCost"
      case InvalidAmounts => "Invalid amounts: must be positive numbers"
      case CostNotBelowOrder => "Supplier cost must be less than order amount"
    }

    function Status(): nat { 400 }
  }

  /** The `result` object of a successful response. */
  datatype SimulationResult = SimulationResult(
    orderAmount: real,
    supplierCost: real,
    profit: real,
    margin: real,
    holdDays: int,
    timestamp: string)

  /** Profit as a percentage of the order amount, before rounding. */
  function RawMargin(order: real, cost: real): real
    requires order > 0.0
  {
    ((order - cost) / order) * 100.0
  }

  /** With `0 < cost < order` the unrounded margin lies strictly between 0 and 100. */
  lemma RawMarginBounds(order: real, cost: real)
    requires 0.0 < cost < order
    ensures 0.0 < RawMargin(order, cost) < 100.0
  {
    var p := (order - cost) / order;
    assert p * order == order - cost;
    if p >= 1.0 { MulMonotone(1.0, p, order); assert false; }
    if p <= 0.0 { MulMonotone(p, 0.0, order); assert false; }
  }

  lemma MulMonotone(a: real, b: real, x: real)
    requires x > 0.0 && a <= b
    ensures a * x <= b * x
  {
  }

  /** Rounding to cents keeps a value of `[lo, hi]` in `[lo, hi]` when both ends are whole cents. */
  lemma RoundCentsWithin(x: real, lo: int, hi: int)
    requires lo as real / 100.0 <= x <= hi as real / 100.0
    ensures lo as real / 100.0 <= RoundCents(x) <= hi as real / 100.0
  {
    RoundCentsMonotone(lo as real / 100.0, x);
    RoundCentsMonotone(x, hi as real / 100.0);
    RoundCentsOfCents(lo);
    RoundCentsOfCents(hi);
  }

  /** The handler. `now` stands for `new Date().toISOString()`. */
  function Simulate(req: SimulationRequest, now: string): (r: Result<SimulationResult, SimulationError>)
    ensures r == Err(MissingFields) <==> !Truthy(req.orderAmount) || !Truthy(req.supplierCost)
    ensures Truthy(req.orderAmount) && Truthy(req.supplierCost) ==>
      r == SimulateParsed(ParseValue(req.orderAmount), ParseValue(req.supplierCost), now)
  {
    if !Truthy(req.orderAmount) || !Truthy(req.supplierCost) then Err(MissingFields)
    else SimulateParsed(ParseValue(req.orderAmount), ParseValue(req.supplierCost), now)
  }

  /** The handler after its missing-field check, on the two `parseFloat`
      results (`None` for NaN). */
  function SimulateParsed(order: Option<real>, cost: Option<real>, now: string): (r: Result<SimulationResult, SimulationError>)
    ensures r != Err(MissingFields)
    ensures r == Err(InvalidAmounts) <==>
      order.None? || cost.None? || order.value <= 0.0 || cost.value <= 0.0
    ensures r == Err(CostNotBelowOrder) <==>
      order.Some? && cost.Some? && 0.0 < cost.value && 0.0 < order.value <= cost.value
    ensures r.Ok? ==>
      var x := r.value;
      && order == Some(x.orderAmount)
      && cost == Some(x.supplierCost)
      && 0.0 < x.supplierCost < x.orderAmount
      && 0.0 <= x.profit && x.orderAmount - x.supplierCost - 0.005 < x.profit <= x.orderAmount - x.supplierCost + 0.005
      && 0.0 <= x.margin <= 100.0
      && RawMargin(x.orderAmount, x.supplierCost) - 0.005 < x.margin <= RawMargin(x.orderAmount, x.supplierCost) + 0.005
      && IsWholeCents(x.profit) && IsWholeCents(x.margin)
      && x.holdDays >= 1
      && (x.holdDays - 1) as real * 100.0 < x.supplierCost <= x.holdDays as real * 100.0
      && x.timestamp == now
  {
    if order.None? || cost.None? || order.value <= 0.0 || cost.value <= 0.0 then Err(InvalidAmounts)
    else if cost.value >= order.value then Err(CostNotBelowOrder)
    else
      var o, c := order.value, cost.value;
      var profit := o - c;
      var margin := (profit / o) * 100.0;
      var holdDays := MathCeil(c / 100.0);
      RawMarginBounds(o, c);
      RoundCentsWithin(margin, 0, 10000);
      RoundCentsWithin(profit, 0, MathCeil(profit * 100.0));
      Ok(SimulationResult(o, c, RoundCents(profit), RoundCents(margin), holdDays, now))
  }

  /** The three validation stages on the request, in order: the first one
      that fails is reported, and only a request passing all three is answered
      with a result. */
  lemma SimulateValidation(req: SimulationRequest, now: string)
    ensures var r := Simulate(req, now);
      var order, cost := ParseValue(req.orderAmount), ParseValue(req.supplierCost);
      && (r == Err(MissingFields) <==> !Truthy(req.orderAmount) || !Truthy(req.supplierCost))
      && (r == Err(InvalidAmounts) <==>
          Truthy(req.orderAmount) && Truthy(req.supplierCost) &&
          (order.None? || cost.None? || order.value <= 0.0 || cost.value <= 0.0))
      && (r == Err(CostNotBelowOrder) <==>
          Truthy(req.orderAmount) && Truthy(req.supplierCost) &&
          order.Some? && cost.Some? && 0.0 < cost.value && 0.0 < order.value <= cost.value)
      && (r.Ok? <==>
          Truthy(req.orderAmount) && Truthy(req.supplierCost) &&
          order.Some? && cost.Some? && 0.0 < cost.value < order.value)
  {
    if Truthy(req.orderAmount) && Truthy(req.supplierCost) {
      var order, cost := ParseValue(req.orderAmount), ParseValue(req.supplierCost);
      var r := SimulateParsed(order, cost, now);
      if r.Err? {
        assert r.error == InvalidAmounts || r.error == CostNotBelowOrder;
      }
    }
  }

  /** An accepted pair of amounts gets the amounts, profit and margin rounded
      to cents, and the hold days of the cost. */
  lemma SimulateFormulas(o: real, c: real, now: string)
    requires 0.0 < c < o
    ensures SimulateParsed(Some(o), Some(c), now)
         == Ok(SimulationResult(o, c, RoundCents(o - c), RoundCents(RawMargin(o, c)), MathCeil(c / 100.0), now))
  {
  }

  /** The numeric fields depend on the amounts alone: two calls at different
      times, or with different e-mail addresses, agree on everything but the
      timestamp. */
  lemma SimulateDeterministic(req1: SimulationRequest, req2: SimulationRequest, now1: string, now2: string)
    requires req1.orderAmount == req2.orderAmount && req1.supplierCost == req2.supplierCost
    ensures Simulate(req1, now1).Ok? == Simulate(req2, now2).Ok?
    ensures Simulate(req1, now1).Err? ==> Simulate(req1, now1) == Simulate(req2, now2)
    ensures Simulate(req1, now1).Ok? ==> Simulate(req1, now1).value.(timestamp := now2) == Simulate(req2, now2).value
  {
    if Truthy(req1.orderAmount) && Truthy(req1.supplierCost) {
      var order, cost := ParseValue(req1.orderAmount), ParseValue(req1.supplierCost);
      if order.Some? && cost.Some? && 0.0 < cost.value < order.value {
        SimulateFormulas(order.value, cost.value, now1);
        SimulateFormulas(order.value, cost.value, now2);
      }
    }
  }

  /** A numeric `0` is falsy, so it takes the missing-field branch. */
  lemma NumericZeroIsMissing(other: JsValue, email: JsValue, now: string)
    ensures Simulate(SimulationRequest(Num(0.0), other, email), now) == Err(MissingFields)
    ensures Simulate(SimulationRequest(other, Num(0.0), email), now) == Err(MissingFields)
  {
  }

  /** The string `"0"` is truthy and parses to 0, so it takes the invalid-amount branch. */
  lemma StringZeroIsInvalid(other: JsValue, email: JsValue, now: string)
    requires Truthy(other)
    ensures Simulate(SimulationRequest(Str("0"), other, email), now) == Err(InvalidAmounts)
    ensures Simulate(SimulationRequest(other, Str("0"), email), now) == Err(InvalidAmounts)
  {
    assert Strings.NatToString(0) == "0";
    ParseFloatNatToString(0);
  }

  /** Equal amounts are rejected by the relation check, and produce no result. */
  lemma EqualAmountsRejected(amount: real, email: JsValue, now: string)
    requires amount > 0.0
    ensures Simulate(SimulationRequest(Num(amount), Num(amount), email), now) == Err(CostNotBelowOrder)
  {
  }

  /** Order 100, cost 50: profit 50.00, margin 50.00, one hold day. */
  lemma ExampleHundredFifty(email: JsValue, now: string)
    ensures Simulate(SimulationRequest(Num(100.0), Num(50.0), email), now)
         == Ok(SimulationResult(100.0, 50.0, 50.0, 50.0, 1, now))
  {
    assert MathRound(50.0 * 100.0) == 5000;
    assert MathCeil(50.0 / 100.0) == 1;
  }

  /** An order amount written after an ideographic space (U+3000). */
  const IdeographicTen: string := "\U{3000}10"

  /** Leading Unicode white space is skipped: order `"\u300010"`, cost 5 give
      profit 5.00, margin 50.00 and one hold day. */
  lemma ExampleIdeographicSpace(email: JsValue, now: string)
    ensures Simulate(SimulationRequest(Str(IdeographicTen), Num(5.0), email), now)
         == Ok(SimulationResult(10.0, 5.0, 5.0, 50.0, 1, now))
  {
    ParseIdeographicTen();
    TenFiveMetrics();
    SimulateFormulas(10.0, 5.0, now);
  }

  lemma ParseIdeographicTen()
    ensures ParseValue(Str(IdeographicTen)) == Some(10.0)
  {
    var ten := Strings.NatToString(10);
    assert ten == "10";
    assert IdeographicTen == ['\U{3000}'] + ten;
    ParseFloatSkipsWhite(['\U{3000}'], ten);
    ParseFloatNatToString(10);
  }

  /** The arithmetic of order 10, cost 5. */
  lemma TenFiveMetrics()
    ensures RoundCents(10.0 - 5.0) == 5.0
    ensures RoundCents(RawMargin(10.0, 5.0)) == 50.0
    ensures MathCeil(5.0 / 100.0) == 1
  {
    RoundCentsOfCents(500);
    assert RawMargin(10.0, 5.0) == 50.0;
    RoundCentsOfCents(5000);
  }

  /** The order and cost placeholders of the ReapSow form. */
  const OrderPlaceholder: string := "299.99"
  const CostPlaceholder: string := "199.99"

  /** Order `"299.99"`, cost `"199.99"`: profit 100.00, margin 33.33, two hold days. */
  lemma ExampleFormPlaceholders(email: JsValue, now: string)
    ensures Simulate(SimulationRequest(Str(OrderPlaceholder), Str(CostPlaceholder), email), now)
         == Ok(SimulationResult(299.99, 199.99, 100.0, 33.33, 2, now))
  {
    ParseOrderPlaceholder();
    ParseCostPlaceholder();
    PlaceholderMetrics();
    SimulateFormulas(299.99, 199.99, now);
  }

  /** The arithmetic of the placeholder example. */
  lemma PlaceholderMetrics()
    ensures RoundCents(299.99 - 199.99) == 100.0
    ensures RoundCents(RawMargin(299.99, 199.99)) == 33.33
    ensures MathCeil(199.99 / 100.0) == 2
  {
    assert 299.99 - 199.99 == 100.0;
    RoundCentsOfCents(10000);
    var m := RawMargin(299.99, 199.99);
    assert m == 1000000.0 / 29999.0;
    assert 3333.0 <= m * 100.0 + 0.5 < 3334.0;
    assert MathRound(m * 100.0) == 3333;
  }

  /** `parseFloat` of the two form placeholders. */
  lemma ParseOrderPlaceholder()
    ensures ParseValue(Str(OrderPlaceholder)) == Some(299.99)
  {
    assert Strings.NatToString(299) == "299";
    assert OrderPlaceholder == Strings.NatToString(299) + ['.'] + Cents99;
    Cents99Value();
    ParseFloatDecimal(299, Cents99);
  }

  lemma ParseCostPlaceholder()
    ensures ParseValue(Str(CostPlaceholder)) == Some(199.99)
  {
    assert Strings.NatToString(199) == "199";
    assert CostPlaceholder == Strings.NatToString(199) + ['.'] + Cents99;
    Cents99Value();
    ParseFloatDecimal(199, Cents99);
  }

  /** The fraction digits of both placeholders. */
  const Cents99: string := "99"

  lemma Cents99Value()
    ensures forall k :: 0 <= k < |Cents99| ==> Strings.IsDigit(Cents99[k])
    ensures DecimalValue(299, Cents99) == 299.99 && DecimalValue(199, Cents99) == 199.99
  {
    assert DigitsValue(Cents99, 0, 2) == 99;
    assert Pow10(2) == 100;
  }
}
