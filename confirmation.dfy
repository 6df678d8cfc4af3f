/**
 * The payment-confirmation endpoint `GET /api/checkout/success`. The backend store is a
 * class whose fields the handler changes; Stripe's session, the store's failures and the
 * mail transport's failure are inputs, and the handler reports the outside calls it made.
 */
module Confirmation {
  import opened Wrappers
  import opened Http
  import Decimal
  import Checkout

  const OrdersPage := "/profile/orders"
  const PaidStatus := "Betalt"

  /** The parts of a retrieved Stripe checkout session the handler reads. */
  datatype CheckoutSession = CheckoutSession(
    paymentStatus: string,
    metadata: Option<map<string, string>>,
    customerEmail: Option<string>)

  /** The fields sent to the store; `None` is `undefined` in a text field and `NaN` in a number field. */
  datatype OrderFields = OrderFields(
    user: Option<string>,
    quantity: Option<int>,
    deliveryMethod: Option<string>,
    totalPrice: Option<int>,
    status: string)

  /** An order as stored, with the id the store assigned. */
  datatype Order = Order(id: string, fields: OrderFields)

  /** Which step of the inventory block throws, if any. */
  datatype InventoryFault = NoInventoryFault | AdminLoginFails | InventoryReadFails | InventoryUpdateFails

  /**
   * Which step of the mail block throws, if any: the dynamic `import` of the mail module
   * (before any mail starts) or the customer confirmation. A throwing admin notice is not
   * listed: nothing follows it.
   */
  datatype MailFault = NoMailFault | MailModuleFails | CustomerMailFails

  /**
   * How the outside world answers during one invocation: Stripe's session (`None` when
   * `retrieve` throws), the id the store gives the new order (`None` when `create` throws),
   * whether both admin credentials are configured, the inventory fault, and the mail fault.
   */
  datatype Services = Services(
    retrieved: Option<CheckoutSession>,
    assignedOrderId: Option<string>,
    adminCredentials: bool,
    inventoryFault: InventoryFault,
    mailFault: MailFault)

  /** The order details passed to both mails. */
  datatype OrderSummary = OrderSummary(id: string, quantity: Option<int>, deliveryMethod: string, totalPrice: Option<int>)

  /** An outside call the handler starts, whether or not it then throws. */
  datatype ExternalCall =
    | RetrieveSession(sessionId: string)
    | CreateOrder(order: OrderFields)
    | AdminLogin
    | ReadInventory
    | UpdateInventory(quantityAvailable: Option<int>)
    | SendOrderConfirmation(to: string, summary: OrderSummary)
    | SendAdminNotification(summary: OrderSummary, customerEmail: string)

  // ------------------------------------------------------------ decisions

  /** `!sessionId` is false. */
  predicate HasSessionId(sessionId: Option<string>) {
    sessionId.Some? && sessionId.value != ""
  }

  predicate IsPaid(svc: Services) {
    svc.retrieved.Some? && svc.retrieved.value.paymentStatus == "paid"
  }

  /** The path on which an order record comes to exist. */
  predicate OrderPlaced(sessionId: Option<string>, svc: Services) {
    HasSessionId(sessionId) && IsPaid(svc) && svc.assignedOrderId.Some?
  }

  /** `session.metadata || {}`. */
  function MetadataOf(session: CheckoutSession): map<string, string> {
    match session.metadata
    case None => map[]
    case Some(md) => md
  }

  function MetadataText(md: map<string, string>, key: string): Option<string> {
    if key in md then Some(md[key]) else None
  }

  /** `Number(metadata[key])`; a missing key gives `NaN`. */
  function MetadataNumber(md: map<string, string>, key: string): Option<int> {
    match MetadataText(md, key)
    case None => None
    case Some(s) => Decimal.ParseInt(s)
  }

  /** The record the handler asks the store to create. */
  function OrderFieldsFrom(md: map<string, string>): (f: OrderFields)
    ensures f.status == PaidStatus
  {
    OrderFields(MetadataText(md, "userId"), MetadataNumber(md, "quantity"),
                MetadataText(md, "deliveryMethod"), MetadataNumber(md, "totalPrice"), PaidStatus)
  }

  /** `Math.max(0, available - Number(quantity))`; `NaN` propagates through `Math.max`. */
  function Remaining(available: int, quantity: Option<int>): (r: Option<int>)
    ensures r.Some? <==> quantity.Some?
    ensures r.Some? ==> r.value >= 0 && r.value >= available - quantity.value
    ensures r.Some? ==> r.value == 0 || r.value == available - quantity.value
  {
    match quantity
    case None => None
    case Some(q) => Some(if available - q > 0 then available - q else 0)
  }

  /** The calls the inventory block starts, in order; it stops at the first one that throws. */
  function InventoryCalls(svc: Services, available: int, quantity: Option<int>): seq<ExternalCall> {
    if !svc.adminCredentials then []
    else if svc.inventoryFault == AdminLoginFails then [AdminLogin]
    else if svc.inventoryFault == InventoryReadFails then [AdminLogin, ReadInventory]
    else [AdminLogin, ReadInventory, UpdateInventory(Remaining(available, quantity))]
  }

  /** The stock once the inventory block is over. */
  function InventoryAfter(svc: Services, available: int, quantity: Option<int>): int {
    if svc.adminCredentials && svc.inventoryFault == NoInventoryFault && quantity.Some?
    then Remaining(available, quantity).value
    else available
  }

  /** `String(deliveryMethod)`, which is the text "undefined" for a missing field. */
  function Display(field: Option<string>): string {
    match field
    case None => "undefined"
    case Some(s) => s
  }

  function Summary(order: Order): OrderSummary {
    OrderSummary(order.id, order.fields.quantity, Display(order.fields.deliveryMethod), order.fields.totalPrice)
  }

  /**
   * The mails the mail block starts: none without an address or when the mail module
   * cannot be loaded, else the customer's, then the admins' unless the first threw.
   */
  function MailCalls(email: Option<string>, summary: OrderSummary, fault: MailFault): seq<ExternalCall> {
    if email.None? || email.value == "" then []
    else if fault == MailModuleFails then []
    else [SendOrderConfirmation(email.value, summary)]
         + (if fault == CustomerMailFails then [] else [SendAdminNotification(summary, email.value)])
  }

  /** The outer `catch`: a 303 passes through, everything else becomes a 500. */
  function Caught(thrown: Response): Response {
    if thrown.status == 303 then thrown else HttpError(500, ConfirmationFailed)
  }

  // ---------------------------------------------------------- the backend

  class Backend {
    /** `inventory.quantity_available` of the one inventory record. */
    var quantityAvailable: int
    /** The `orders` collection. */
    var orders: seq<Order>

    constructor (quantityAvailable: int, orders: seq<Order>)
      ensures this.quantityAvailable == quantityAvailable && this.orders == orders
    {
      this.quantityAvailable := quantityAvailable;
      this.orders := orders;
    }

    /** One invocation of the handler for the query parameter `session_id`. */
    method Confirm(sessionId: Option<string>, svc: Services) returns (resp: Response, calls: seq<ExternalCall>)
      modifies this
      ensures !HasSessionId(sessionId) ==>
                && resp == HttpError(400, MissingSessionId) && calls == []
                && orders == old(orders) && quantityAvailable == old(quantityAvailable)
      ensures HasSessionId(sessionId) && !OrderPlaced(sessionId, svc) ==>
                && resp == HttpError(500, ConfirmationFailed)
                && orders == old(orders) && quantityAvailable == old(quantityAvailable)
                && calls == [RetrieveSession(sessionId.value)]
                            + (if IsPaid(svc) then [CreateOrder(OrderFieldsFrom(MetadataOf(svc.retrieved.value)))] else [])
      ensures OrderPlaced(sessionId, svc) ==>
                var session := svc.retrieved.value;
                var order := Order(svc.assignedOrderId.value, OrderFieldsFrom(MetadataOf(session)));
                && resp == Redirect(303, OrdersPage)
                && orders == old(orders) + [order]
                && quantityAvailable == InventoryAfter(svc, old(quantityAvailable), order.fields.quantity)
                && calls == [RetrieveSession(sessionId.value), CreateOrder(order.fields)]
                            + InventoryCalls(svc, old(quantityAvailable), order.fields.quantity)
                            + MailCalls(session.customerEmail, Summary(order), svc.mailFault)
      ensures old(quantityAvailable) >= 0 ==> quantityAvailable >= 0
    {
      calls := [];
      if sessionId.None? || sessionId.value == "" {
        resp := HttpError(400, MissingSessionId);
        return;
      }
      var thrown: Response;
      calls := calls + [RetrieveSession(sessionId.value)];
      if svc.retrieved.None? {
        thrown := Escaped(0);
      } else if svc.retrieved.value.paymentStatus == "paid" {
        var session := svc.retrieved.value;
        var fields := OrderFieldsFrom(MetadataOf(session));
        calls := calls + [CreateOrder(fields)];
        if svc.assignedOrderId.None? {
          thrown := Escaped(0);
        } else {
          var order := Order(svc.assignedOrderId.value, fields);
          orders := orders + [order];
          var stockCalls := UpdateStock(svc, fields.quantity);
          var mailCalls := SendMails(session.customerEmail, Summary(order), svc.mailFault);
          calls := calls + stockCalls + mailCalls;
          thrown := Redirect(303, OrdersPage);
        }
      } else {
        thrown := HttpError(400, PaymentNotCompleted);
      }
      resp := Caught(thrown);
    }

    /** The inventory block: its own try/catch, so any failure leaves the stock as it was. */
    method UpdateStock(svc: Services, quantity: Option<int>) returns (calls: seq<ExternalCall>)
      modifies this`quantityAvailable
      ensures quantityAvailable == InventoryAfter(svc, old(quantityAvailable), quantity)
      ensures calls == InventoryCalls(svc, old(quantityAvailable), quantity)
    {
      calls := [];
      if svc.adminCredentials {
        calls := calls + [AdminLogin];
        if svc.inventoryFault != AdminLoginFails {
          calls := calls + [ReadInventory];
          if svc.inventoryFault != InventoryReadFails {
            var available := quantityAvailable;
            var newQuantity := Remaining(available, quantity);
            calls := calls + [UpdateInventory(newQuantity)];
            if svc.inventoryFault != InventoryUpdateFails && newQuantity.Some? {
              quantityAvailable := newQuantity.value;
            }
          }
        }
      }
    }

    /** The mail block: its own try/catch, so a failure only stops the mail still to come. */
    method SendMails(email: Option<string>, summary: OrderSummary, fault: MailFault) returns (calls: seq<ExternalCall>)
      ensures calls == MailCalls(email, summary, fault)
    {
      calls := [];
      if email.Some? && email.value != "" {
        // `await import('$lib/server/mail')` may throw before either mail starts
        if fault != MailModuleFails {
          calls := calls + [SendOrderConfirmation(email.value, summary)];
          if fault != CustomerMailFails {
            calls := calls + [SendAdminNotification(summary, email.value)];
          }
        }
      }
    }
  }

  // -------------------------------------------------------------- lemmas

  /** The store's stock is never driven below zero, whatever quantity the metadata names. */
  lemma InventoryNeverNegative(svc: Services, available: int, quantity: Option<int>)
    requires available >= 0
    ensures InventoryAfter(svc, available, quantity) >= 0
  {
  }

  /**
   * The stock changes only through a completed update: both credentials present, login
   * and read succeeded, and the value written is the clamped difference.
   */
  lemma InventoryWrittenOnlyThroughUpdate(svc: Services, available: int, quantity: Option<int>)
    ensures !svc.adminCredentials ==> InventoryCalls(svc, available, quantity) == [] && InventoryAfter(svc, available, quantity) == available
    ensures InventoryAfter(svc, available, quantity) != available ==>
              && svc.adminCredentials && svc.inventoryFault == NoInventoryFault
              && InventoryCalls(svc, available, quantity)[2] == UpdateInventory(Some(InventoryAfter(svc, available, quantity)))
    ensures svc.inventoryFault != NoInventoryFault ==> InventoryAfter(svc, available, quantity) == available
  {
  }

  /**
   * Mails go out only to a customer address and only once the mail module loaded, the
   * customer's before the admins', and the admins' only after the customer's went through.
   */
  lemma MailOrdering(email: Option<string>, summary: OrderSummary, fault: MailFault)
    ensures var calls := MailCalls(email, summary, fault);
            && (calls == [] <==> email.None? || email.value == "" || fault == MailModuleFails)
            && (calls != [] ==> calls[0] == SendOrderConfirmation(email.value, summary))
            && (forall i, j :: 0 <= i < |calls| && 0 <= j < |calls| && calls[i].SendAdminNotification? && calls[j].SendOrderConfirmation? ==> j < i)
            && (|calls| == 2 <==> email.Some? && email.value != "" && fault == NoMailFault)
  {
  }

  /** The `catch` lets the paid path's redirect through and turns the not-paid `error(400, …)`, thrown inside the `try`, into a 500. */
  lemma CaughtOutcomes(r: Response)
    ensures Caught(Redirect(303, OrdersPage)) == Redirect(303, OrdersPage)
    ensures Caught(HttpError(400, PaymentNotCompleted)) == HttpError(500, ConfirmationFailed)
    ensures Caught(r).status == 303 || Caught(r) == HttpError(500, ConfirmationFailed)
  {
  }

  /**
   * The metadata checkout writes is read back unchanged: the order gets the checkout's
   * user, quantity, method and server-computed total, and the stock drops by that quantity.
   */
  lemma MetadataRoundTrip(userId: string, q: int, m: Checkout.DeliveryMethod, total: int, svc: Services, available: int)
    ensures var fields := OrderFieldsFrom(Checkout.SessionMetadata(userId, q, m, total));
            && fields == OrderFields(Some(userId), Some(q), Some(Checkout.MethodName(m)), Some(total), PaidStatus)
            && (svc.adminCredentials && svc.inventoryFault == NoInventoryFault ==>
                  InventoryAfter(svc, available, fields.quantity) == if available - q > 0 then available - q else 0)
  {
    var md := Checkout.SessionMetadata(userId, q, m, total);
    Decimal.ParseShowInt(q);
    Decimal.ParseShowInt(total);
    assert MetadataText(md, "quantity") == Some(Decimal.ShowInt(q));
    assert MetadataText(md, "totalPrice") == Some(Decimal.ShowInt(total));
  }
}
