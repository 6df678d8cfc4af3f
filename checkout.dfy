/**
 * The checkout form action: validation of the posted form, the inventory admission
 * check, the campaign price, the price calculation and the Stripe checkout-session
 * request with its line items and metadata. Every outside call is an input: the
 * inventory record (or the store's failure), the campaign list (or the failure),
 * the current time and Stripe's reply.
 */
module Checkout {
  import opened Wrappers
  import opened Http
  import Decimal

  const DefaultStandardPrice := 1490
  const StandardDeliveryPricePerPallet := 300
  const ExpressDeliveryPricePer3 := 1000
  const MaxQuantity := 9

  datatype DeliveryMethod = Pickup | Standard | Express

  /** The form value naming each delivery method. */
  function MethodName(m: DeliveryMethod): string {
    match m
    case Pickup => "pickup"
    case Standard => "standard"
    case Express => "express"
  }

  /** `VALID_DELIVERY_METHODS.includes(field)`, keeping the method the field names. */
  function ParseDeliveryMethod(field: Option<string>): (r: Option<DeliveryMethod>)
    ensures r.Some? <==> field.Some? && field.value in ["pickup", "standard", "express"]
  {
    match field
    case None => None
    case Some(s) =>
      if s == "pickup" then Some(Pickup)
      else if s == "standard" then Some(Standard)
      else if s == "express" then Some(Express)
      else None
  }

  /** A form value is accepted exactly when it is the name of a delivery method, and then it names that method. */
  lemma DeliveryMethodRoundTrip(m: DeliveryMethod, field: Option<string>)
    ensures ParseDeliveryMethod(Some(MethodName(m))) == Some(m)
    ensures ParseDeliveryMethod(field) == Some(m) <==> field == Some(MethodName(m))
  {
  }

  // ---------------------------------------------------------------- pricing

  /** `Math.ceil(q / 3)`: the least number of batches of three that hold `q` items. */
  function CeilThird(q: int): (r: int)
    ensures 3 * r - 3 < q <= 3 * r
  {
    (q + 2) / 3
  }

  datatype Cost = Cost(woodCost: int, shippingCost: int, total: int)

  /** `calculateTotal`: the goods, the shipping and their sum, in whole kroner. */
  function CalculateTotal(q: int, m: DeliveryMethod, pricePerSack: int): Cost {
    var woodCost := q * pricePerSack;
    var shippingCost :=
      if m == Pickup then 0
      else if m == Express then CeilThird(q) * ExpressDeliveryPricePer3
      else q * StandardDeliveryPricePerPallet;
    Cost(woodCost, shippingCost, woodCost + shippingCost)
  }

  /** The two worked examples of the pricing rules. */
  lemma PricingExamples()
    ensures CalculateTotal(3, Express, 1190) == Cost(3570, 1000, 4570)
    ensures CalculateTotal(5, Standard, 1490) == Cost(7450, 1500, 8950)
    ensures CalculateTotal(4, Express, 1490) == Cost(5960, 2000, 7960)
    ensures CalculateTotal(9, Pickup, 1490) == Cost(13410, 0, 13410)
  {
  }

  // --------------------------------------------------------------- campaigns

  datatype Campaign = Campaign(isActive: bool, campaignPrice: int, standardPrice: int, endDate: int, created: int)

  datatype PricePair = PricePair(price: int, standardPrice: int)

  /** The position `campaigns.find(c => c.endDate >= now)` stops at, if any. */
  function FirstRunning(cs: seq<Campaign>, now: int): (r: Option<nat>)
    ensures r.Some? ==> r.value < |cs| && cs[r.value].endDate >= now
    ensures r.Some? ==> forall j :: 0 <= j < r.value ==> cs[j].endDate < now
    ensures r.None? <==> forall j :: 0 <= j < |cs| ==> cs[j].endDate < now
    decreases |cs|
  {
    if cs == [] then None
    else if cs[0].endDate >= now then Some(0)
    else match FirstRunning(cs[1..], now)
      case None => None
      case Some(i) => Some(i + 1)
  }

  /**
   * `getActiveCampaignPrice`: `lookup` is the store's answer to the campaign query,
   * `None` when the query threw; the failure is swallowed into the default pair.
   */
  function ActiveCampaignPrice(lookup: Option<seq<Campaign>>, now: int): (p: PricePair)
    ensures lookup.None? ==> p == PricePair(DefaultStandardPrice, DefaultStandardPrice)
    ensures lookup.Some? && (forall j :: 0 <= j < |lookup.value| ==> lookup.value[j].endDate < now) ==>
              p == PricePair(DefaultStandardPrice, DefaultStandardPrice)
  {
    match lookup
    case None => PricePair(DefaultStandardPrice, DefaultStandardPrice)
    case Some(cs) =>
      match FirstRunning(cs, now)
      case None => PricePair(DefaultStandardPrice, DefaultStandardPrice)
      case Some(i) => PricePair(cs[i].campaignPrice, cs[i].standardPrice)
  }

  /** What the query `filter: 'isActive = true', sort: '-created'` guarantees of the list it returns. */
  ghost predicate IsQueryResult(cs: seq<Campaign>) {
    && (forall i :: 0 <= i < |cs| ==> cs[i].isActive)
    && (forall i, j :: 0 <= i < j < |cs| ==> cs[i].created >= cs[j].created)
  }

  /**
   * On the list the query returns, the price comes from an active, still running
   * campaign created no earlier than any other running one.
   */
  lemma NewestRunningCampaignWins(cs: seq<Campaign>, now: int, k: nat)
    requires IsQueryResult(cs)
    requires k < |cs| && cs[k].endDate >= now
    ensures FirstRunning(cs, now).Some?
    ensures var i := FirstRunning(cs, now).value;
            && cs[i].isActive && cs[i].endDate >= now
            && ActiveCampaignPrice(Some(cs), now) == PricePair(cs[i].campaignPrice, cs[i].standardPrice)
            && forall j :: 0 <= j < |cs| && cs[j].endDate >= now ==> cs[j].created <= cs[i].created
  {
  }

  // --------------------------------------------------------------- inventory

  /** The store's answer to `getOne` on the inventory record; a failure carries the error's `status` (0 when it has none). */
  datatype InventoryLookup =
    | InventoryRecord(quantityAvailable: int, isInStock: bool)
    | InventoryLookupFailed(status: int)

  /** The admission check: `None` lets checkout go on, `Some(e)` stops it with `e`. */
  function InventoryCheck(lookup: InventoryLookup, q: int): (r: Option<Response>)
    ensures r.None? <==> lookup.InventoryRecord? && lookup.isInStock && lookup.quantityAvailable >= q
    ensures lookup.InventoryRecord? && r.Some? ==> r.value == HttpError(400, InsufficientStock)
    ensures lookup.InventoryLookupFailed? && lookup.status != 400 ==> r == Some(HttpError(503, StockUnverifiable))
  {
    match lookup
    case InventoryRecord(available, inStock) =>
      if !inStock || available < q then Some(HttpError(400, InsufficientStock)) else None
    case InventoryLookupFailed(status) =>
      // the catch rethrows any error whose status is 400, the store's own included
      if status == 400 then Some(Escaped(400)) else Some(HttpError(503, StockUnverifiable))
  }

  // ------------------------------------------------------------------- form

  /** `Number(data.get('quantity'))`: an integer, or anything `Number.isInteger` refuses. */
  datatype FormNumber = IntegerValue(n: int) | NotAnInteger

  datatype CheckoutForm = CheckoutForm(quantity: FormNumber, deliveryMethod: Option<string>, email: Option<string>)

  datatype ValidForm = ValidForm(quantity: int, delivery: DeliveryMethod)

  predicate QuantityAccepted(n: FormNumber) {
    n.IntegerValue? && 1 <= n.n <= MaxQuantity
  }

  /** The two guards at the top of the action, quantity first. */
  function ValidateForm(form: CheckoutForm): (r: Result<ValidForm, Response>)
    ensures r.Success? <==> QuantityAccepted(form.quantity) && ParseDeliveryMethod(form.deliveryMethod).Some?
    ensures r.Success? ==> r.value.quantity == form.quantity.n && ParseDeliveryMethod(form.deliveryMethod) == Some(r.value.delivery)
    ensures !QuantityAccepted(form.quantity) ==> r == Failure(HttpError(400, InvalidQuantity))
    ensures QuantityAccepted(form.quantity) && r.Failure? ==> r.error == HttpError(400, InvalidDeliveryMethod)
  {
    if !QuantityAccepted(form.quantity) then Failure(HttpError(400, InvalidQuantity))
    else match ParseDeliveryMethod(form.deliveryMethod)
      case None => Failure(HttpError(400, InvalidDeliveryMethod))
      case Some(m) => Success(ValidForm(form.quantity.n, m))
  }

  // ---------------------------------------------------------- session request

  datatype LineItem = LineItem(currency: string, name: string, description: Option<string>, unitAmount: int, quantity: int)

  const ProductName := "Blandingsved, 1000L storsekk"

  function MethodLabel(m: DeliveryMethod): string {
    if m == Pickup then "Hent sjølv" else if m == Express then "Ekspress levering" else "Standard levering"
  }

  /** The line items: the sacks, then one shipping item unless the buyer picks up. */
  function LineItems(q: int, m: DeliveryMethod, pricePerSack: int): seq<LineItem> {
    var goods := LineItem("nok", ProductName, Some(Decimal.ShowInt(q) + " stk. (" + MethodLabel(m) + ")"), pricePerSack * 100, q);
    var shipping :=
      if m != Pickup then
        [LineItem("nok", if m == Express then "Ekspress levering" else "Standard levering", None,
                  if m == Express then ExpressDeliveryPricePer3 * 100 else StandardDeliveryPricePerPallet * 100,
                  if m == Express then CeilThird(q) else q)]
      else [];
    [goods] + shipping
  }

  /** What Stripe charges for a list of line items, in øre. */
  function Charged(items: seq<LineItem>): int {
    if items == [] then 0 else items[0].unitAmount * items[0].quantity + Charged(items[1..])
  }

  /** The session charges exactly the computed total, converted from kroner to øre. */
  lemma LineItemsChargeTotal(q: int, m: DeliveryMethod, pricePerSack: int)
    ensures Charged(LineItems(q, m, pricePerSack)) == 100 * CalculateTotal(q, m, pricePerSack).total
  {
    var items := LineItems(q, m, pricePerSack);
    assert Charged(items[1..]) == if m == Pickup then 0 else items[1].unitAmount * items[1].quantity;
    assert items[0].unitAmount * items[0].quantity == 100 * (q * pricePerSack);
  }

  /** The goods item, and a shipping item with its unit amount and count exactly when the method is not pickup. */
  lemma LineItemsLayout(q: int, m: DeliveryMethod, pricePerSack: int)
    ensures var items := LineItems(q, m, pricePerSack);
            && |items| == (if m == Pickup then 1 else 2)
            && items[0].unitAmount == pricePerSack * 100 && items[0].quantity == q
            && (m == Express ==> items[1].unitAmount == 100000 && items[1].quantity == CeilThird(q))
            && (m == Standard ==> items[1].unitAmount == 30000 && items[1].quantity == q)
  {
  }

  /** `String(...)` of each field the confirmation handler needs later. */
  function SessionMetadata(userId: string, q: int, m: DeliveryMethod, total: int): map<string, string> {
    map["userId" := userId, "quantity" := Decimal.ShowInt(q),
        "deliveryMethod" := MethodName(m), "totalPrice" := Decimal.ShowInt(total)]
  }

  datatype SessionRequest = SessionRequest(
    customerEmail: Option<string>,
    phoneNumberCollection: bool,
    shippingCountries: Option<seq<string>>,
    lineItems: seq<LineItem>,
    mode: string,
    successUrl: string,
    cancelUrl: string,
    metadata: map<string, string>)

  /** `locals.user?.id || ''`. */
  function UserId(user: Option<string>): string {
    match user
    case None => ""
    case Some(id) => id
  }

  /** `email ? String(email) : undefined`: an empty field counts as missing. */
  function CustomerEmail(email: Option<string>): Option<string> {
    if email.Some? && email.value != "" then email else None
  }

  /** Everything before the call to Stripe: the guards, the admission check, the price and the request. */
  function PrepareCheckout(form: CheckoutForm, origin: string, user: Option<string>,
                           inventory: InventoryLookup, campaigns: Option<seq<Campaign>>, now: int)
    : Result<SessionRequest, Response>
  {
    match ValidateForm(form)
    case Failure(e) => Failure(e)
    case Success(v) =>
      match InventoryCheck(inventory, v.quantity)
      case Some(e) => Failure(e)
      case None =>
        var price := ActiveCampaignPrice(campaigns, now).price;
        var total := CalculateTotal(v.quantity, v.delivery, price).total;
        Success(SessionRequest(
          CustomerEmail(form.email),
          true,
          if v.delivery != Pickup then Some(["NO"]) else None,
          LineItems(v.quantity, v.delivery, price),
          "payment",
          origin + "/api/checkout/success?session_id={CHECKOUT_SESSION_ID}",
          origin + "/#kalkulator",
          SessionMetadata(UserId(user), v.quantity, v.delivery, total)))
  }

  /** Stripe's reply to `sessions.create`: a session whose `url` may be missing, or a thrown error. */
  datatype StripeReply = SessionCreated(url: Option<string>) | StripeFailed

  /** The whole action: its final `redirect(303, ...)` or the error it throws. */
  function CheckoutAction(form: CheckoutForm, origin: string, user: Option<string>,
                          inventory: InventoryLookup, campaigns: Option<seq<Campaign>>, now: int,
                          reply: StripeReply): Response
  {
    match PrepareCheckout(form, origin, user, inventory, campaigns, now)
    case Failure(e) => e
    case Success(_) =>
      match reply
      case StripeFailed => HttpError(500, PaymentFailed)
      case SessionCreated(url) =>
        if url.None? || url.value == "" then HttpError(500, SessionWithoutUrl) else Redirect(303, url.value)
  }

  /** A rejected form is answered with 400 whatever the store, the clock and Stripe would have said. */
  lemma RejectedBeforeServices(form: CheckoutForm, origin: string, user: Option<string>,
                               inventory: InventoryLookup, campaigns: Option<seq<Campaign>>, now: int,
                               reply: StripeReply)
    requires ValidateForm(form).Failure?
    ensures CheckoutAction(form, origin, user, inventory, campaigns, now, reply) == ValidateForm(form).error
    ensures CheckoutAction(form, origin, user, inventory, campaigns, now, reply).status == 400
  {
  }

  /** A prepared session passed admission, charges the server-computed total and carries it in its metadata. */
  lemma PreparedSessionFacts(form: CheckoutForm, origin: string, user: Option<string>,
                             inventory: InventoryLookup, campaigns: Option<seq<Campaign>>, now: int)
    requires PrepareCheckout(form, origin, user, inventory, campaigns, now).Success?
    ensures var req := PrepareCheckout(form, origin, user, inventory, campaigns, now).value;
            var v := ValidateForm(form).value;
            var total := CalculateTotal(v.quantity, v.delivery, ActiveCampaignPrice(campaigns, now).price).total;
            && 1 <= v.quantity <= MaxQuantity
            && inventory.InventoryRecord? && inventory.isInStock && inventory.quantityAvailable >= v.quantity
            && Charged(req.lineItems) == 100 * total
            && Decimal.ParseInt(req.metadata["totalPrice"]) == Some(total)
            && Decimal.ParseInt(req.metadata["quantity"]) == Some(v.quantity)
            && ParseDeliveryMethod(Some(req.metadata["deliveryMethod"])) == Some(v.delivery)
            && (req.shippingCountries.Some? <==> v.delivery != Pickup)
  {
    var req := PrepareCheckout(form, origin, user, inventory, campaigns, now).value;
    var v := ValidateForm(form).value;
    var price := ActiveCampaignPrice(campaigns, now).price;
    var total := CalculateTotal(v.quantity, v.delivery, price).total;
    assert InventoryCheck(inventory, v.quantity).None?;
    assert req.lineItems == LineItems(v.quantity, v.delivery, price);
    assert req.metadata == SessionMetadata(UserId(user), v.quantity, v.delivery, total);
    LineItemsChargeTotal(v.quantity, v.delivery, price);
    Decimal.ParseShowInt(total);
    Decimal.ParseShowInt(v.quantity);
    DeliveryMethodRoundTrip(v.delivery, None);
  }

  /** The action redirects exactly when the session was prepared and Stripe returned a non-empty URL, and then to that URL. */
  lemma CheckoutRedirects(form: CheckoutForm, origin: string, user: Option<string>,
                          inventory: InventoryLookup, campaigns: Option<seq<Campaign>>, now: int,
                          reply: StripeReply)
    ensures CheckoutAction(form, origin, user, inventory, campaigns, now, reply).Redirect? <==>
            && PrepareCheckout(form, origin, user, inventory, campaigns, now).Success?
            && reply.SessionCreated? && reply.url.Some? && reply.url.value != ""
    ensures CheckoutAction(form, origin, user, inventory, campaigns, now, reply).Redirect? ==>
            CheckoutAction(form, origin, user, inventory, campaigns, now, reply) == Redirect(303, reply.url.value)
  {
  }
}
