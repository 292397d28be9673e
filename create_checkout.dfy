/** The `create-checkout` handler: switch the caller to the free plan at once,
    or open a Razorpay order for the premium plan and record it as a payment
    intent. The Razorpay orders API is the parameter `createOrder`. */
module CreateCheckout {
  import opened Common
  import opened Tables
  import opened Store

  /** The premium price in rupees; the order is placed in paisa. */
  const PriceRupees := 1200
  const Currency := "INR"

  const InvalidPlanMessage := "Invalid plan selected"
  const NotAuthenticatedMessage := "User not authenticated"
  const DowngradedMessage := "Downgraded to free plan"

  /** The JSON body posted to the orders API. */
  datatype OrderRequest = OrderRequest(
    amount: int,
    currency: string,
    receipt: string,
    notesUserId: string,
    notesPlan: string)

  /** What the orders API answers: an order, a non-OK response with its
      optional `error.description`, or a call that threw. */
  datatype OrderResponse =
    | OrderCreated(id: string, amount: int, currency: string)
    | OrderRefused(description: Option<string>)
    | OrderCallFailed(message: string)

  /** The success bodies: the downgrade acknowledgement, or the order details
      the browser needs to open the Razorpay checkout. */
  datatype CheckoutBody =
    | Downgraded(success: bool, message: string)
    | Checkout(
        orderId: string,
        amount: int,
        currency: string,
        keyId: string,
        prefillName: Option<string>,
        prefillEmail: Option<string>,
        url: string)

  /** Only the two known plan names pass validation; a missing plan does not. */
  predicate ValidPlan(plan: Option<string>)
    ensures ValidPlan(plan) <==> plan.Some? && plan.value in {"premium", "free"}
    ensures ValidPlan(plan) ==> Truthy(plan)
  {
    plan == Some(PlanPremium) || plan == Some(PlanFree)
  }

  /** The order placed for a premium upgrade at clock reading `nowMs`. */
  function OrderRequestFor(userId: string, nowMs: nat): (req: OrderRequest)
    ensures req.amount == 120000 && req.currency == "INR"
    ensures req.notesUserId == userId && req.notesPlan == "premium"
    // the receipt is "receipt_order_" followed by the clock reading in decimal
    ensures |req.receipt| > 14 && req.receipt[..14] == "receipt_order_"
    ensures forall i :: 14 <= i < |req.receipt| ==> IsDigit(req.receipt[i])
    ensures DecimalValue(req.receipt[14..]) == nowMs
    ensures req.receipt == "receipt_order_" + Decimal(nowMs)
  {
    OrderRequest(PriceRupees * 100, Currency, "receipt_order_" + Decimal(nowMs), userId, PlanPremium)
  }

  /** The error reported when the orders API answers non-OK. */
  function ProviderErrorMessage(description: Option<string>): (m: string)
    ensures Truthy(description) ==> m == "Razorpay API error: " + description.value
    ensures !Truthy(description) ==> m == "Razorpay API error: Unknown error"
  {
    "Razorpay API error: " + (if Truthy(description) then description.value else "Unknown error")
  }

  /** The buyer name to prefill: the profile's name when it is non-empty,
      otherwise the caller's email. */
  function PrefillName(profiles: Profiles, user: AuthUser): (name: Option<string>)
    ensures user.id in profiles && Truthy(profiles[user.id].name) ==> name == profiles[user.id].name
    ensures !(user.id in profiles && Truthy(profiles[user.id].name)) ==> name == user.email
  {
    if user.id in profiles then OrElse(profiles[user.id].name, user.email) else user.email
  }

  /** A template literal renders a missing header as "null". */
  function OriginText(origin: Option<string>): string
  {
    if origin.Some? then origin.value else "null"
  }

  /** The checkout page's address: the request's origin (or "null" without
      one), then the checkout path, ending in the order id. */
  function CheckoutUrl(origin: Option<string>, orderId: string): (url: string)
    ensures |url| == |OriginText(origin)| + |"/checkout?order_id="| + |orderId|
    ensures url[..|OriginText(origin)|] == OriginText(origin)
    ensures url[|OriginText(origin)|..|url| - |orderId|] == "/checkout?order_id="
    ensures url[|url| - |orderId|..] == orderId
    ensures origin.None? ==> url[..4] == "null"
  {
    OriginText(origin) + "/checkout?order_id=" + orderId
  }

  /** Handles one request. `sent` is the order request posted to Razorpay, if any. */
  method Handle(
    db: Store, plan: Option<string>, user: Option<AuthUser>, origin: Option<string>,
    keyId: string, nowMs: nat, createOrder: OrderRequest -> OrderResponse)
    returns (reply: Reply<CheckoutBody>, sent: Option<OrderRequest>)
    requires db.Valid()
    modifies db
    ensures db.Valid()
    ensures HistoryKept(old(db.payments), db.payments)
    // a request answered 400 leaves the database as it was
    ensures reply.Status() == 400 ==> unchanged(db)
    // an unknown plan is refused before anything else is looked at
    ensures !ValidPlan(plan) ==>
      reply == Failure(InvalidPlanMessage) && sent == None && unchanged(db)
    ensures ValidPlan(plan) && user.None? ==>
      reply == Failure(NotAuthenticatedMessage) && sent == None && unchanged(db)
    // downgrade: no provider call, no payment row
    ensures plan == Some(PlanFree) && user.Some? ==>
      && reply == Success(Downgraded(true, DowngradedMessage)) && sent == None
      && db.profiles == UpdatePlan(old(db.profiles), user.value.id, PlanFree, None)
      && db.payments == old(db.payments) && db.apiRequests == old(db.apiRequests)
      && db.nextRowId == old(db.nextRowId)
    // upgrade: the order is placed first
    ensures plan == Some(PlanPremium) && user.Some? ==>
      sent == Some(OrderRequestFor(user.value.id, nowMs))
    ensures plan == Some(PlanPremium) && user.Some? &&
            createOrder(OrderRequestFor(user.value.id, nowMs)).OrderRefused? ==>
      && reply == Failure(ProviderErrorMessage(createOrder(OrderRequestFor(user.value.id, nowMs)).description))
      && unchanged(db)
    ensures plan == Some(PlanPremium) && user.Some? &&
            createOrder(OrderRequestFor(user.value.id, nowMs)).OrderCallFailed? ==>
      && reply == Failure(createOrder(OrderRequestFor(user.value.id, nowMs)).message)
      && unchanged(db)
    // and only a created order is recorded, as exactly one new payment row
    ensures plan == Some(PlanPremium) && user.Some? &&
            createOrder(OrderRequestFor(user.value.id, nowMs)).OrderCreated? ==>
      var u := user.value;
      var order := createOrder(OrderRequestFor(u.id, nowMs));
      && db.payments == old(db.payments) + [PaymentRow(
           old(db.nextRowId), u.id, Some(1200), Some("INR"), "premium", Some("created"),
           None, Some(order.id), None, None, nowMs)]
      && db.profiles == old(db.profiles) && db.apiRequests == old(db.apiRequests)
      && reply == Success(Checkout(
           order.id, order.amount, order.currency, keyId,
           PrefillName(old(db.profiles), u), u.email, CheckoutUrl(origin, order.id)))
  {
    sent := None;
    if !ValidPlan(plan) {
      reply := Failure(InvalidPlanMessage);
      return;
    }
    if user.None? {
      reply := Failure(NotAuthenticatedMessage);
      return;
    }
    var u := user.value;
    if plan.value == PlanFree {
      db.SetPlan(u.id, PlanFree, None);
      reply := Success(Downgraded(true, DowngradedMessage));
      return;
    }
    var customerName := PrefillName(db.profiles, u);
    var request := OrderRequestFor(u.id, nowMs);
    sent := Some(request);
    match createOrder(request)
    case OrderRefused(description) =>
      reply := Failure(ProviderErrorMessage(description));
    case OrderCallFailed(message) =>
      reply := Failure(message);
    case OrderCreated(orderId, amount, currency) =>
      db.InsertPayment(PaymentRow(
        0, u.id, Some(PriceRupees), Some(Currency), PlanPremium, Some("created"),
        None, Some(orderId), None, None, nowMs));
      reply := Success(Checkout(orderId, amount, currency, keyId, customerName, u.email, CheckoutUrl(origin, orderId)));
  }
}
