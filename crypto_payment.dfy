/** The crypto checkout's two routes: creating an order together with a
    payment invoice at the gateway, and the gateway's callback that reports
    the payment's status. The gateway's reply, the clock, the fresh `_id`
    and the e-mail check of the validator library are parameters; sending
    the confirmation e-mail is reported as a flag. */
module CryptoPayment {
  import opened Wrappers
  import opened Js
  import opened OrderModel

  // ---------------------------------------------------------------------
  // POST /create-crypto-payment

  /** One line of `line_items`: the unit amount in cents and the quantity,
      `None` when the request leaves it out. */
  datatype LineItem = LineItem(unitAmount: int, quantity: Option<int>)

  datatype CryptoRequest = CryptoRequest(
    lineItems: Option<seq<LineItem>>, shippingInfo: Option<ShippingInfo>, customer: Option<Customer>)

  /** `item.quantity || 1`: an absent or zero quantity counts as one. */
  function Quantity(it: LineItem): (q: int)
    ensures q != 0
    ensures it.quantity.Some? && it.quantity.value != 0 ==> q == it.quantity.value
  {
    if it.quantity.Some? && it.quantity.value != 0 then it.quantity.value else 1
  }

  /** `(item.price_data.unit_amount / 100) * (item.quantity || 1)` in dollars. */
  function LineAmount(it: LineItem): (r: real) {
    (it.unitAmount as real / 100.0) * (Quantity(it) as real)
  }

  /** `line_items.reduce((sum, item) => sum + ..., 0)`: the fold adds the
      lines from the first to the last. */
  function TotalAmount(items: seq<LineItem>): (r: real)
    ensures items == [] ==> r == 0.0
    ensures (forall i :: 0 <= i < |items| ==> items[i].unitAmount >= 0 && Quantity(items[i]) > 0) ==> r >= 0.0
    decreases |items|
  {
    if items == [] then 0.0 else TotalAmount(items[..|items| - 1]) + LineAmount(items[|items| - 1])
  }

  /** The total of a joined list is the sum of the two totals, so the order
      of the fold does not change the amount charged. */
  lemma {:induction false} TotalAmountAppend(a: seq<LineItem>, b: seq<LineItem>)
    ensures TotalAmount(a + b) == TotalAmount(a) + TotalAmount(b)
    decreases |b|
  {
    if b == [] {
      assert a + b == a;
    } else {
      var b' := b[..|b| - 1];
      assert (a + b)[..|a + b| - 1] == a + b';
      assert (a + b)[|a + b| - 1] == b[|b| - 1];
      TotalAmountAppend(a, b');
    }
  }

  /** A single line of 2500 cents without a quantity is charged 25 dollars. */
  lemma TotalAmountExample()
    ensures TotalAmount([LineItem(2500, None)]) == 25.0
    ensures TotalAmount([LineItem(2500, Some(0)), LineItem(1000, Some(3))]) == 55.0
  {
    var two := [LineItem(2500, Some(0)), LineItem(1000, Some(3))];
    assert two[..1] == [LineItem(2500, Some(0))];
    assert [LineItem(2500, Some(0))][..0] == [];
    assert [LineItem(2500, None)][..0] == [];
  }

  /** The document built from the request before it is saved. */
  function CryptoOrder(req: CryptoRequest, total: real, now: nat): (o: Order)
    ensures o.orderID == Some("CRYPTO-" + DecimalString(now))
    ensures o.customer == req.customer && o.shippingInfo.Some?
    ensures o.totalPrice == Some(total) && o.subtotal == Some(total)
    ensures o.paymentMethod == Some("crypto") && o.orderStatus == Some(DefaultStatus)
    ensures o.paymentStatus == Some(DefaultStatus) && o.paymentId.None?
    ensures o.products == Some([]) && o.createdAt == now
  {
    ApplyDefaults(Order(
      Some("CRYPTO-" + DecimalString(now)), req.customer, req.shippingInfo, None, None,
      Some(total), None, None, None, Some(total), Some("crypto"), None, Some(DefaultStatus), None, now))
  }

  /** The route's answer: a 400, a 500, or the invoice with its payment id. */
  datatype CreateReply = BadRequest | ServerError | InvoiceCreated(paymentId: string)

  /** The trimmed e-mail address of the customer, `None` when it is absent. */
  function TrimmedEmail(c: Customer): (r: Option<string>) {
    if c.email.Some? then Some(Trim(c.email.value)) else None
  }

  /** `order.save()` and the gateway call: a failed save answers 500 with
      nothing stored; a gateway reply without an id answers 500 with the
      order stored. */
  function SaveAndInvoice(store: Store, newId: string, order: Order, invoiceId: Option<string>): (r: (CreateReply, Store))
    requires newId !in store
    ensures r.0 != BadRequest
    ensures r.1 == store || (r.1 == store[newId := order] && Valid(order))
    ensures r.1 != store <==> Save(store, newId, order).Ok?
    ensures r.0.InvoiceCreated? <==> r.1 != store && invoiceId.Some? && invoiceId.value != ""
    ensures r.0.InvoiceCreated? ==> r.0.paymentId == invoiceId.value
  {
    match Save(store, newId, order)
    case Err(_) => (ServerError, store)
    case Ok(saved) =>
      assert newId in saved;
      if invoiceId.None? || invoiceId.value == "" then (ServerError, saved)
      else (InvoiceCreated(invoiceId.value), saved)
  }

  /** The handler. `isEmail` is the validator library's check, `invoiceId`
      the `id` of the gateway's reply (`None` when the call fails or the
      reply has no id). A missing e-mail makes `isEmail(undefined)` throw
      and a missing item list makes `reduce` throw: both answer 500 without
      storing anything. The invoice id is assigned to a property that is
      not a path of the order schema, so the second save stores nothing
      new. */
  function CreateCryptoPayment(store: Store, req: CryptoRequest, now: nat, newId: string,
                               isEmail: string -> bool, invoiceId: Option<string>): (r: (CreateReply, Store))
    requires newId !in store
    ensures r.0 == BadRequest <==>
      req.shippingInfo.None? || req.customer.None? ||
      (req.customer.value.email.Some? && !isEmail(Trim(req.customer.value.email.value)))
    ensures r.0 == BadRequest ==> r.1 == store
    ensures r.1 == store || (req.lineItems.Some? && r.1 == store[newId := CryptoOrder(req, TotalAmount(req.lineItems.value), now)])
    ensures r.1 != store ==> Valid(r.1[newId])
    ensures r.0.InvoiceCreated? <==> r.1 != store && invoiceId.Some? && invoiceId.value != ""
    ensures r.0.InvoiceCreated? ==> r.0.paymentId == invoiceId.value
  {
    if req.shippingInfo.None? || req.customer.None? then (BadRequest, store)
    else if TrimmedEmail(req.customer.value).None? then (ServerError, store)
    else if !isEmail(TrimmedEmail(req.customer.value).value) then (BadRequest, store)
    else if req.lineItems.None? then (ServerError, store)
    else
      SaveAndInvoice(store, newId, CryptoOrder(req, TotalAmount(req.lineItems.value), now), invoiceId)
  }

  /** The order is stored exactly when the request passes its checks and
      the document passes validation and the unique index; the store keeps
      its invariant. */
  lemma CreateCryptoPaymentSaves(store: Store, req: CryptoRequest, now: nat, newId: string,
                                 isEmail: string -> bool, invoiceId: Option<string>)
    requires newId !in store && StoreInvariant(store)
    ensures var r := CreateCryptoPayment(store, req, now, newId, isEmail, invoiceId);
      StoreInvariant(r.1) &&
      (r.1 != store <==>
        r.0 != BadRequest && req.customer.value.email.Some? && req.lineItems.Some? &&
        Save(store, newId, CryptoOrder(req, TotalAmount(req.lineItems.value), now)).Ok?)
  {
    var r := CreateCryptoPayment(store, req, now, newId, isEmail, invoiceId);
    if r.0 != BadRequest && req.customer.value.email.Some? && req.lineItems.Some? {
      var order := CryptoOrder(req, TotalAmount(req.lineItems.value), now);
      SaveKeepsInvariant(store, newId, order);
    }
  }

  /** A customer without first name is refused by the schema: the answer is
      500, and neither an order nor an invoice is created. */
  lemma CreateWithoutFirstName(store: Store, req: CryptoRequest, now: nat, newId: string,
                               isEmail: string -> bool, invoiceId: Option<string>)
    requires newId !in store
    requires req.shippingInfo.Some? && req.customer.Some? && req.customer.value.firstName.None?
    requires req.customer.value.email.Some? && isEmail(Trim(req.customer.value.email.value))
    ensures CreateCryptoPayment(store, req, now, newId, isEmail, invoiceId) == (ServerError, store)
  {
    var order := CryptoOrder(req, TotalAmount(req.lineItems.GetOr([])), now);
    assert Fails(order, FirstNamePath);
    ValidIffNoFailure(order);
  }

  // ---------------------------------------------------------------------
  // POST /webhook

  /** The gateway's notification; `None` is an absent field. */
  datatype Notification = Notification(paymentId: Option<string>, paymentStatus: Option<string>, orderId: Option<string>)

  datatype WebhookReply = InvalidWebhook | OrderNotFound | WebhookFailed | Received(emailSent: bool)

  /** A notification field is truthy: present and not "". */
  predicate Sent(v: Option<string>) {
    v.Some? && v.value != ""
  }

  /** The gateway statuses that mean the payment went through. */
  predicate Confirmed(status: string) {
    status == "confirmed" || status == "finished"
  }

  /** The three groups of gateway statuses the handler maps. */
  predicate FailedPayment(status: string) {
    status == "failed" || status == "expired"
  }

  predicate WaitingPayment(status: string) {
    status == "waiting" || status == "pending"
  }

  /** `Order.findOne({ orderID: order_id })`: the `_id` of a stored order
      whose `orderID` is the value; the unique index makes it the only one. */
  ghost function FindByOrderID(store: Store, v: string): (r: Option<string>)
    ensures r.Some? ==> r.value in store && store[r.value].orderID == Some(v)
    ensures r.None? <==> forall k :: k in store ==> store[k].orderID != Some(v)
  {
    if exists k :: k in store && store[k].orderID == Some(v) then
      var k :| k in store && store[k].orderID == Some(v); Some(k)
    else None
  }

  /** The status mapping as the handler writes it: the capitalised words
      go into `orderStatus`; any other gateway status leaves the order. */
  function MarkAsWritten(o: Order, status: string): (r: Order)
    ensures r.(orderStatus := o.orderStatus) == o
    ensures Confirmed(status) ==> r.orderStatus == Some("Completed")
    ensures FailedPayment(status) ==> r.orderStatus == Some("Failed")
    ensures WaitingPayment(status) ==> r.orderStatus == Some("Pending")
    ensures !Confirmed(status) && !FailedPayment(status) && !WaitingPayment(status) ==> r == o
  {
    if Confirmed(status) then o.(orderStatus := Some("Completed"))
    else if FailedPayment(status) then o.(orderStatus := Some("Failed"))
    else if WaitingPayment(status) then o.(orderStatus := Some("Pending"))
    else o
  }

  /** The webhook as written: lookup by `orderID`, the capitalised status
      words, then `order.save()`, whose validation error answers 500. */
  ghost function WebhookAsWritten(store: Store, n: Notification): (r: (WebhookReply, Store))
    ensures !Sent(n.paymentId) || !Sent(n.paymentStatus) || !Sent(n.orderId) ==> r == (InvalidWebhook, store)
    ensures r.0 == OrderNotFound ==> r.1 == store
    ensures r.0 == WebhookFailed ==> r.1 == store
    ensures r.0 == Received(true) ==> Confirmed(n.paymentStatus.value)
  {
    if !Sent(n.paymentId) || !Sent(n.paymentStatus) || !Sent(n.orderId) then (InvalidWebhook, store)
    else match FindByOrderID(store, n.orderId.value)
      case None => (OrderNotFound, store)
      case Some(k) =>
        match Save(store, k, MarkAsWritten(store[k], n.paymentStatus.value))
        case Err(_) => (WebhookFailed, store)
        case Ok(s) => (Received(Confirmed(n.paymentStatus.value)), s)
  }

  /** Every status the handler maps fails the order's enum, so a confirmed,
      failed or waiting payment is never recorded and no confirmation e-mail
      goes out: the handler answers 500 and the store is unchanged. */
  lemma WrittenWebhookNeverRecords(store: Store, n: Notification)
    requires Sent(n.paymentId) && Sent(n.paymentStatus) && Sent(n.orderId)
    requires FindByOrderID(store, n.orderId.value).Some?
    requires var s := n.paymentStatus.value; Confirmed(s) || FailedPayment(s) || WaitingPayment(s)
    ensures WebhookAsWritten(store, n) == (WebhookFailed, store)
  {
    var k := FindByOrderID(store, n.orderId.value).value;
    var o := MarkAsWritten(store[k], n.paymentStatus.value);
    assert Fails(o, OrderStatusPath);
    ValidIffNoFailure(o);
  }

  /** On a store that keeps its invariant the handler as written never
      changes the store: the mapped statuses fail validation and the others
      save the order unchanged; so replaying a notification changes nothing
      either. */
  lemma WrittenWebhookKeepsStore(store: Store, n: Notification)
    requires StoreInvariant(store)
    ensures WebhookAsWritten(store, n).1 == store
  {
    if Sent(n.paymentId) && Sent(n.paymentStatus) && Sent(n.orderId) && FindByOrderID(store, n.orderId.value).Some? {
      var k := FindByOrderID(store, n.orderId.value).value;
      var o := MarkAsWritten(store[k], n.paymentStatus.value);
      if o != store[k] {
        assert Fails(o, OrderStatusPath);
        ValidIffNoFailure(o);
      } else {
        assert store[k := o] == store;
      }
    }
  }

  /** The invoice carries the order's `_id`, not its `orderID`: for an order
      stored under `_id` "k" with orderID "CRYPTO-1", the notification is
      answered with not-found. */
  lemma WrittenWebhookMissesOrder(o: Order)
    requires o.orderID == Some("CRYPTO-1")
    ensures WebhookAsWritten(map["k" := o], Notification(Some("p1"), Some("finished"), Some("k"))) == (OrderNotFound, map["k" := o])
  {
    var store := map["k" := o];
    assert forall k :: k in store ==> store[k].orderID != Some("k");
  }

  /** The status mapping as evidently intended: the gateway status is
      recorded as the order's payment status, with a value of its enum. */
  function MarkPayment(o: Order, status: string): (r: Order)
    ensures r.(paymentStatus := o.paymentStatus) == o
    ensures Confirmed(status) ==> r.paymentStatus == Some("completed")
    ensures FailedPayment(status) ==> r.paymentStatus == Some("failed")
    ensures WaitingPayment(status) ==> r.paymentStatus == Some("pending")
    ensures !Confirmed(status) && !FailedPayment(status) && !WaitingPayment(status) ==> r == o
    ensures !OutsideEnum(r.paymentStatus, PaymentStatuses) <== !OutsideEnum(o.paymentStatus, PaymentStatuses)
  {
    if Confirmed(status) then o.(paymentStatus := Some("completed"))
    else if FailedPayment(status) then o.(paymentStatus := Some("failed"))
    else if WaitingPayment(status) then o.(paymentStatus := Some("pending"))
    else o
  }

  /** The corrected webhook: the order is looked up by the `_id` the invoice
      carries and the payment status is recorded with a value of its enum. */
  function HandleWebhook(store: Store, n: Notification): (r: (WebhookReply, Store))
    ensures !Sent(n.paymentId) || !Sent(n.paymentStatus) || !Sent(n.orderId) ==> r == (InvalidWebhook, store)
    ensures r.0 == OrderNotFound <==>
      Sent(n.paymentId) && Sent(n.paymentStatus) && Sent(n.orderId) && n.orderId.value !in store
    ensures r.0.Received? ==> r.1 == store[n.orderId.value := MarkPayment(store[n.orderId.value], n.paymentStatus.value)]
    ensures r.0.Received? ==> (r.0.emailSent <==> Confirmed(n.paymentStatus.value))
    ensures !r.0.Received? ==> r.1 == store
  {
    if !Sent(n.paymentId) || !Sent(n.paymentStatus) || !Sent(n.orderId) then (InvalidWebhook, store)
    else if n.orderId.value !in store then (OrderNotFound, store)
    else
      var k := n.orderId.value;
      match Save(store, k, MarkPayment(store[k], n.paymentStatus.value))
      case Err(_) => (WebhookFailed, store)
      case Ok(s) => (Received(Confirmed(n.paymentStatus.value)), s)
  }

  /** On a store that keeps its invariant, every well-formed notification
      for a stored order is received, the invariant is kept, and only that
      order's payment status changes. */
  lemma HandleWebhookRecords(store: Store, n: Notification)
    requires StoreInvariant(store)
    requires Sent(n.paymentId) && Sent(n.paymentStatus) && Sent(n.orderId) && n.orderId.value in store
    ensures HandleWebhook(store, n).0.Received?
    ensures StoreInvariant(HandleWebhook(store, n).1)
    ensures Confirmed(n.paymentStatus.value) ==> HandleWebhook(store, n).1[n.orderId.value].paymentStatus == Some("completed")
  {
    var k := n.orderId.value;
    var o := MarkPayment(store[k], n.paymentStatus.value);
    assert Valid(store[k]);
    assert Valid(o);
    SaveKeepsInvariant(store, k, o);
  }

  /** The gateway may repeat a notification: handling it twice leaves the
      store as handling it once. */
  lemma HandleWebhookIdempotent(store: Store, n: Notification)
    requires StoreInvariant(store)
    ensures HandleWebhook(HandleWebhook(store, n).1, n) == HandleWebhook(store, n)
  {
    var r := HandleWebhook(store, n);
    if r.0.Received? {
      HandleWebhookRecords(store, n);
      var k := n.orderId.value;
      var s := n.paymentStatus.value;
      assert MarkPayment(MarkPayment(store[k], s), s) == MarkPayment(store[k], s);
      assert r.1[k := MarkPayment(r.1[k], s)] == r.1;
      HandleWebhookRecords(r.1, n);
    } else if Sent(n.paymentId) && Sent(n.paymentStatus) && Sent(n.orderId) && n.orderId.value in store {
      HandleWebhookRecords(store, n);
    }
  }
}
