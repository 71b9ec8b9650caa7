/** The ReapSow page's margin simulator (`handleSimulate`): the client-side
    copy of the server's rule, without the missing-field stage, keeping the
    last successful simulation on screen when a new one is rejected. */
module MarginClient {
  import opened Wrappers
  import opened JsValues
  import MarginServer
  import opened Toasts

  /** What the page shows after a successful simulation. */
  datatype Simulation = Simulation(margin: real, profit: real, holdDays: int)

  /** The two rejections; both show a destructive "Invalid Input" toast. */
  datatype ClientError = InvalidInput | CostNotBelowOrder


  /** The computation of `handleSimulate` on the two text fields. */
  function ClientSimulate(orderText: string, costText: string): (r: Result<Simulation, ClientError>)
    ensures r == Err(InvalidInput) <==>
      ParseFloat(orderText).None? || ParseFloat(costText).None? ||
      ParseFloat(orderText).value <= 0.0 || ParseFloat(costText).value <= 0.0
  {
    ClientDecide(ParseFloat(orderText), ParseFloat(costText))
  }

  /** `handleSimulate` after its two `parseFloat` calls (`None` for NaN). */
  function ClientDecide(order: Option<real>, cost: Option<real>): (r: Result<Simulation, ClientError>)
    ensures r == Err(InvalidInput) <==>
      order.None? || cost.None? || order.value <= 0.0 || cost.value <= 0.0
    ensures r == Err(CostNotBelowOrder) <==>
      order.Some? && cost.Some? && 0.0 < cost.value && 0.0 < order.value <= cost.value
    ensures r.Ok? ==>
      var o, c := order.value, cost.value;
      && 0.0 < c < o
      && 0.0 <= r.value.margin <= 100.0
      && 0.0 <= r.value.profit
      && IsWholeCents(r.value.margin) && IsWholeCents(r.value.profit)
      && r.value.holdDays >= 1
  {
    if order.None? || cost.None? || order.value <= 0.0 || cost.value <= 0.0 then
      Err(InvalidInput)
    else if cost.value >= order.value then Err(CostNotBelowOrder)
    else
      var profit := order.value - cost.value;
      var margin := (profit / order.value) * 100.0;
      var holdDays := MathCeil(cost.value / 100.0);
      MarginServer.RawMarginBounds(order.value, cost.value);
      MarginServer.RoundCentsWithin(margin, 0, 10000);
      MarginServer.RoundCentsWithin(profit, 0, MathCeil(profit * 100.0));
      Ok(Simulation(RoundCents(margin), RoundCents(profit), holdDays))
  }

  /** The toast shown for each outcome. */
  function ToastFor(r: Result<Simulation, ClientError>): (t: Toast)
    ensures t.destructive <==> r.Err?
  {
    match r
    case Ok(_) => Toast("Simulation Complete! 📊", "Check your results below.", false)
    case Err(InvalidInput) => Toast("Invalid Input", "Please enter valid positive numbers.", true)
    case Err(CostNotBelowOrder) => Toast("Invalid Input", "Supplier cost must be less than order amount.", true)
  }

  /** After parsing, the two copies of the rule agree on every pair of
      amounts: the same acceptance with the same profit, margin and hold days,
      the same relation error, and the server's invalid-amount error where the
      client reports invalid input. */
  lemma DecisionsAgree(order: Option<real>, cost: Option<real>, now: string)
    ensures var s, c := MarginServer.SimulateParsed(order, cost, now), ClientDecide(order, cost);
      && (s.Ok? <==> c.Ok?)
      && (s.Ok? ==> c.value == Simulation(s.value.margin, s.value.profit, s.value.holdDays))
      && (s == Err(MarginServer.CostNotBelowOrder) <==> c == Err(CostNotBelowOrder))
      && (s == Err(MarginServer.InvalidAmounts) <==> c == Err(InvalidInput))
  {
    if order.Some? && cost.Some? && 0.0 < cost.value < order.value {
      MarginServer.SimulateFormulas(order.value, cost.value, now);
    }
  }

  /** The two copies of the rule agree on every pair of form texts: the
      server accepts exactly when the client does, with the same profit,
      margin and hold days; the relation error is reported by both; every
      other server rejection is the client's invalid-input rejection. */
  lemma ClientAgreesWithServer(orderText: string, costText: string, email: JsValue, now: string)
    ensures var s := MarginServer.Simulate(MarginServer.SimulationRequest(Str(orderText), Str(costText), email), now);
      var c := ClientSimulate(orderText, costText);
      && (s.Ok? <==> c.Ok?)
      && (s.Ok? ==> c.value == Simulation(s.value.margin, s.value.profit, s.value.holdDays))
      && (s == Err(MarginServer.CostNotBelowOrder) <==> c == Err(CostNotBelowOrder))
      && (s == Err(MarginServer.InvalidAmounts) || s == Err(MarginServer.MissingFields) <==> c == Err(InvalidInput))
  {
    var s := MarginServer.Simulate(MarginServer.SimulationRequest(Str(orderText), Str(costText), email), now);
    var o, k := ParseFloat(orderText), ParseFloat(costText);
    assert ClientSimulate(orderText, costText) == ClientDecide(o, k);
    if orderText == "" || costText == "" {
      EmptyTextIsNaN();
      assert s == Err(MarginServer.MissingFields);
      assert ClientDecide(o, k) == Err(InvalidInput);
    } else {
      assert ParseValue(Str(orderText)) == o && ParseValue(Str(costText)) == k;
      assert s == MarginServer.SimulateParsed(o, k, now);
      DecisionsAgree(o, k, now);
    }
  }

  /** The client has no missing-field stage: an empty field parses to NaN and
      is reported as invalid input, where the server reports a missing field. */
  lemma EmptyFieldIsInvalidInput(text: string, email: JsValue, now: string)
    ensures ClientSimulate("", text) == Err(InvalidInput)
    ensures ClientSimulate(text, "") == Err(InvalidInput)
    ensures MarginServer.Simulate(MarginServer.SimulationRequest(Str(""), Str(text), email), now) == Err(MarginServer.MissingFields)
  {
    EmptyTextIsNaN();
  }

  lemma EmptyTextIsNaN()
    ensures ParseFloat("") == None
  {
    ParseFloatNoDigits("");
  }

  /** The form placeholders 299.99 and 199.99 give margin 33.33, profit 100.00
      and two hold days. */
  lemma ExampleFormPlaceholders()
    ensures ClientSimulate(MarginServer.OrderPlaceholder, MarginServer.CostPlaceholder) == Ok(Simulation(33.33, 100.0, 2))
  {
    MarginServer.ParseOrderPlaceholder();
    MarginServer.ParseCostPlaceholder();
    MarginServer.PlaceholderMetrics();
  }

  datatype FormField = OrderAmount | SupplierCost | Email

  /** The page state: the form's three text fields and the simulation shown. */
  class ReapSowPage {
    var orderAmount: string
    var supplierCost: string
    var email: string
    var simulation: Option<Simulation>

    constructor ()
      ensures orderAmount == "" && supplierCost == "" && email == ""
      ensures simulation == None
    {
      orderAmount, supplierCost, email := "", "", "";
      simulation := None;
    }

    /** An input's `onChange`: replaces one field, keeps the others. */
    method EditField(field: FormField, value: string)
      modifies this`orderAmount, this`supplierCost, this`email
      ensures orderAmount == if field == OrderAmount then value else old(orderAmount)
      ensures supplierCost == if field == SupplierCost then value else old(supplierCost)
      ensures email == if field == Email then value else old(email)
    {
      match field
      case OrderAmount => orderAmount := value;
      case SupplierCost => supplierCost := value;
      case Email => email := value;
    }

    /** `handleSimulate`: on success the simulation is replaced, on a rejection
        the previous one stays; the form is not touched. */
    method HandleSimulate() returns (toast: Toast)
      modifies this`simulation
      ensures toast == ToastFor(ClientSimulate(orderAmount, supplierCost))
      ensures ClientSimulate(orderAmount, supplierCost).Ok? ==>
        simulation == Some(ClientSimulate(orderAmount, supplierCost).value)
      ensures ClientSimulate(orderAmount, supplierCost).Err? ==> simulation == old(simulation)
    {
      var r := ClientSimulate(orderAmount, supplierCost);
      if r.Ok? {
        simulation := Some(r.value);
      }
      toast := ToastFor(r);
    }
  }
}
