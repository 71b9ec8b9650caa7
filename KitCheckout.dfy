/** The VibeLink kit checkout page: the kit chosen by the `kit` query
    parameter, the order summary, and the simulated payment submit. */
module KitCheckout {
  import opened Wrappers
  import opened Strings
  import opened JsValues
  import opened Toasts

  datatype Kit = Kit(title: string, price: string, priceNum: nat, features: seq<string>)

  const DefaultKitId: string := "curb-appeal"

  /** The `kits` table. */
  const Kits: map<string, Kit> := map[
    "curb-appeal" := Kit("Curb Appeal Starter", "$299", 299,
      ["Landscape Design Guide", "Plant Selection List", "Lighting Setup", "Step-by-step video tutorials"]),
    "interior-refresh" := Kit("Interior Refresh", "$399", 399,
      ["Color Palette Guide", "Furniture Layout Tips", "Decor Checklist", "Professional design templates"]),
    "full-makeover" := Kit("Full Property Makeover", "$799", 799,
      ["Complete Design Plan", "Contractor Contacts", "Budget Template", "Priority support"])
  ]

  /** `searchParams.get("kit") || "curb-appeal"`: an absent or empty
      parameter selects the default kit id. */
  function KitId(param: Option<string>): (id: string)
    ensures param.None? || param == Some("") ==> id == DefaultKitId
    ensures param.Some? && param.value != "" ==> id == param.value
  {
    if param.Some? && param.value != "" then param.value else DefaultKitId
  }

  /** The kit shown for an id, looking at the table's own keys only: the
      id's own entry when it has one, the default kit otherwise. */
  function SelectKit(id: string): (kit: Kit)
    ensures kit in Kits.Values
    ensures id in Kits ==> kit == Kits[id]
    ensures id !in Kits ==> kit == Kits[DefaultKitId]
  {
    if id in Kits then Kits[id] else Kits[DefaultKitId]
  }

  /** Every kit's price text is `$` followed by its price in dollars, and
      reading the digits back gives that price. */
  lemma PriceTextMatchesAmount()
    ensures forall id :: id in Kits ==> Kits[id].price == "$" + NatToString(Kits[id].priceNum)
    ensures forall id :: id in Kits ==> ParseFloat(Kits[id].price[1..]) == Some(Kits[id].priceNum as real)
  {
    forall id | id in Kits
      ensures Kits[id].price == "$" + NatToString(Kits[id].priceNum)
      ensures ParseFloat(Kits[id].price[1..]) == Some(Kits[id].priceNum as real)
    {
      PriceText(id);
      assert Kits[id].price[1..] == NatToString(Kits[id].priceNum);
      ParseFloatNatToString(Kits[id].priceNum);
    }
  }

  lemma PriceText(id: string)
    requires id in Kits
    ensures Kits[id].price == "$" + NatToString(Kits[id].priceNum)
  {
    assert id == "curb-appeal" || id == "interior-refresh" || id == "full-makeover";
    if id == "curb-appeal" {
      assert NatToString(299) == "299";
    } else if id == "interior-refresh" {
      assert NatToString(399) == "399";
    } else {
      assert NatToString(799) == "799";
    }
  }

  /** The order summary's three lines. */
  datatype Summary = Summary(subtotal: string, tax: string, total: string)

  function OrderSummary(kit: Kit): (s: Summary)
    ensures s.tax == "$0.00"
    ensures s.subtotal == kit.price && s.total == s.subtotal
  {
    Summary(kit.price, "$0.00", kit.price)
  }

  /** The pay button's label: it reads "Processing..." exactly while a
      payment is processing, and otherwise names the kit's price. */
  function PayButtonLabel(kit: Kit, isProcessing: bool): (text: string)
    ensures text == "Processing..." <==> isProcessing
    ensures !isProcessing ==> |text| == 4 + |kit.price| && text[..4] == "Pay " && text[4..] == kit.price
  {
    if isProcessing then "Processing..."
    else
      var shown := "Pay " + kit.price;
      assert shown[1] == 'a' != "Processing..."[1];
      shown
  }

  // The lookup as written: `kits[kitId] || kits["curb-appeal"]`.

  /** What `kits[id]` reads on an object literal: an own entry, a member
      inherited from `Object.prototype`, or nothing. */
  datatype Property = OwnEntry(kit: Kit) | Inherited(name: string)

  /** The names every object literal inherits from `Object.prototype`. */
  const PrototypeKeys: set<string> := {
    "constructor", "hasOwnProperty", "isPrototypeOf", "propertyIsEnumerable",
    "toLocaleString", "toString", "valueOf", "__proto__",
    "__defineGetter__", "__defineSetter__", "__lookupGetter__", "__lookupSetter__"
  }

  function PropertyOf(id: string): Option<Property>
  {
    if id in Kits then Some(OwnEntry(Kits[id]))
    else if id in PrototypeKeys then Some(Inherited(id))
    else None
  }

  /** `kits[kitId] || kits["curb-appeal"]`: inherited members are functions or
      objects, hence truthy, so the fallback applies only to an absent key. */
  function SelectKitAsWritten(id: string): (p: Property)
    ensures id !in PrototypeKeys ==> p == OwnEntry(SelectKit(id))
  {
    match PropertyOf(id)
    case Some(p) => p
    case None => OwnEntry(Kits[DefaultKitId])
  }

  /** `?kit=constructor` selects `Object` itself, not a kit: the page then reads
      `kit.features.map` of `undefined`. */
  lemma PrototypeKeyEscapesFallback()
    ensures !SelectKitAsWritten(KitId(Some("constructor"))).OwnEntry?
  {
    assert "constructor" !in Kits;
  }

  /** The corrected lookup always yields a kit of the table. */
  lemma SelectKitTotal(param: Option<string>)
    ensures SelectKit(KitId(param)) in Kits.Values
    ensures KitId(param) in Kits ==> SelectKit(KitId(param)) == Kits[KitId(param)]
    ensures param.None? ==> SelectKit(KitId(param)) == Kits[DefaultKitId]
  {
  }

  datatype CheckoutForm = CheckoutForm(name: string, email: string, phone: string,
                                       cardNumber: string, expiryDate: string, cvv: string)

  const EmptyForm: CheckoutForm := CheckoutForm("", "", "", "", "", "")


  /** The success toast's title, character for character as the page has it
      (its emoji is stored double-encoded, as the four characters `ðŸŽ‰`). */
  const PurchaseSuccessTitle: string := "Purchase Successful! \U{00F0}\U{0178}\U{017D}\U{2030}"

  /** The page state. `submitted` is the form as the pending submit saw it
      (the handler's closure captures the form of the render it came from). */
  class CheckoutPage {
    const kit: Kit
    var isProcessing: bool
    var form: CheckoutForm
    var submitted: CheckoutForm

    constructor (kitParam: Option<string>)
      ensures kit == SelectKit(KitId(kitParam))
      ensures !isProcessing && form == EmptyForm
    {
      kit := SelectKit(KitId(kitParam));
      isProcessing := false;
      form, submitted := EmptyForm, EmptyForm;
    }

    /** An input's `onChange`. */
    method EditForm(newForm: CheckoutForm)
      modifies this`form
      ensures form == newForm
    {
      form := newForm;
    }

    /** The start of `handleSubmit`: processing begins (the pay button is
        disabled meanwhile). */
    method StartSubmit()
      requires !isProcessing
      modifies this`isProcessing, this`submitted
      ensures isProcessing && submitted == form
    {
      isProcessing := true;
      submitted := form;
    }

    /** The end of `handleSubmit`: on success the form is cleared and the
        toast names the kit and the submitted e-mail address; either way
        processing ends. */
    method FinishSubmit(succeeded: bool) returns (toast: Toast)
      requires isProcessing
      modifies this`isProcessing, this`form
      ensures !isProcessing
      ensures succeeded ==> (form == EmptyForm &&
        toast == Toast(PurchaseSuccessTitle, kit.title + " kit will be delivered to " + submitted.email, false))
      ensures !succeeded ==> (form == old(form) &&
        toast == Toast("Payment Failed", "Please check your card details and try again.", true))
    {
      if succeeded {
        toast := Toast(PurchaseSuccessTitle, kit.title + " kit will be delivered to " + submitted.email, false);
        form := EmptyForm;
      } else {
        toast := Toast("Payment Failed", "Please check your card details and try again.", true);
      }
      isProcessing := false;
    }
  }
}
