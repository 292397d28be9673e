/** The `stripe-webhook` handler: one step per delivered event, dispatched on
    the event type. The Stripe SDK calls are parameters: `constructEvent`
    (signature check and parse), `customers` and `subscriptions` (retrieve). */
module StripeWebhook {
  import opened Common
  import opened Tables
  import opened Store

  /** The event types the handler tells apart, with the fields it reads. */
  datatype StripeEvent =
    | CheckoutSessionCompleted(
        customer: string, mode: string, subscription: Option<string>,
        amountTotal: Option<int>, currency: Option<string>)
    | InvoicePaymentSucceeded(invoiceSubscription: string)
    | CustomerSubscriptionDeleted(subscriptionId: string, subscriptionCustomer: string)
    | OtherEvent(eventType: string)

  /** A retrieved customer: the `userId` of its metadata. */
  datatype Customer = Customer(metadataUserId: Option<string>)

  /** A retrieved subscription: its provider status and its customer. */
  datatype Subscription = Subscription(status: string, customer: string)

  datatype Ack = Received

  /** The payment row recorded for a completed subscription checkout. */
  function SubscriptionPayment(
    userId: string, customerId: string, subscriptionId: string, status: string,
    amountTotal: Option<int>, currency: Option<string>, nowMs: int): (row: PaymentRow)
    // later status updates for this subscription and user reach the row ...
    ensures IsSubscriptionRow(row, subscriptionId, userId)
    // ... and no Razorpay order update ever does
    ensures forall orderId :: !IsOrderRow(row, orderId)
    ensures row.plan == "premium" && row.status == Some(status) && row.stripeCustomerId == Some(customerId)
    ensures row.amount == amountTotal && row.currency == currency
    ensures row.validUntil == None && row.createdAt == nowMs
  {
    PaymentRow(0, userId, amountTotal, currency, PlanPremium, Some(status),
               Some(customerId), None, Some(subscriptionId), None, nowMs)
  }

  method Handle(
    db: Store, body: string, signature: Option<string>,
    constructEvent: (string, Option<string>) -> Outcome<StripeEvent>,
    customers: string -> Outcome<Customer>, subscriptions: string -> Outcome<Subscription>,
    nowMs: int)
    returns (reply: Reply<Ack>)
    requires db.Valid()
    modifies db
    ensures db.Valid()
    ensures HistoryKept(old(db.payments), db.payments)
    // a request answered 400 leaves the database as it was
    ensures reply.Status() == 400 ==> unchanged(db)
    ensures db.profiles.Keys == old(db.profiles.Keys) && db.apiRequests == old(db.apiRequests)
    // an event that cannot be constructed is refused
    ensures constructEvent(body, signature).Thrown? ==>
      reply == Failure("Webhook Error: " + constructEvent(body, signature).error) && unchanged(db)
    // checkout.session.completed
    ensures constructEvent(body, signature).Ok? &&
            constructEvent(body, signature).value.CheckoutSessionCompleted? ==>
      var e := constructEvent(body, signature).value;
      match customers(e.customer)
      case Thrown(message) => reply == Failure(message) && unchanged(db)
      case Ok(customer) =>
        if !Truthy(customer.metadataUserId) || !(e.mode == "subscription" && Truthy(e.subscription)) then
          reply == Success(Received) && unchanged(db)
        else
          match subscriptions(e.subscription.value)
          case Thrown(message) => reply == Failure(message) && unchanged(db)
          case Ok(sub) =>
            var userId := customer.metadataUserId.value;
            && reply == Success(Received)
            && db.payments == old(db.payments) + [SubscriptionPayment(
                 userId, e.customer, e.subscription.value, sub.status, e.amountTotal, e.currency, nowMs
               ).(id := old(db.nextRowId))]
            && db.profiles == UpdatePlan(old(db.profiles), userId, PlanPremium, Some(nowMs))
    // invoice.payment_succeeded
    ensures constructEvent(body, signature).Ok? &&
            constructEvent(body, signature).value.InvoicePaymentSucceeded? ==>
      var subscriptionId := constructEvent(body, signature).value.invoiceSubscription;
      match subscriptions(subscriptionId)
      case Thrown(message) => reply == Failure(message) && unchanged(db)
      case Ok(sub) =>
        match customers(sub.customer)
        case Thrown(message) => reply == Failure(message) && unchanged(db)
        case Ok(customer) =>
          && reply == Success(Received)
          && db.profiles == old(db.profiles) && db.nextRowId == old(db.nextRowId)
          && (!Truthy(customer.metadataUserId) ==> db.payments == old(db.payments))
          && (Truthy(customer.metadataUserId) ==>
                db.payments == SetSubscriptionStatus(old(db.payments), subscriptionId, customer.metadataUserId.value, sub.status))
    // customer.subscription.deleted
    ensures constructEvent(body, signature).Ok? &&
            constructEvent(body, signature).value.CustomerSubscriptionDeleted? ==>
      var e := constructEvent(body, signature).value;
      match customers(e.subscriptionCustomer)
      case Thrown(message) => reply == Failure(message) && unchanged(db)
      case Ok(customer) =>
        if !Truthy(customer.metadataUserId) then reply == Success(Received) && unchanged(db)
        else
          && reply == Success(Received)
          && db.payments == SetSubscriptionStatus(old(db.payments), e.subscriptionId, customer.metadataUserId.value, "canceled")
          && db.profiles == UpdatePlan(old(db.profiles), customer.metadataUserId.value, PlanFree, Some(nowMs))
          && db.nextRowId == old(db.nextRowId)
    // any other type is acknowledged and ignored
    ensures constructEvent(body, signature).Ok? && constructEvent(body, signature).value.OtherEvent? ==>
      reply == Success(Received) && unchanged(db)
  {
    var constructed := constructEvent(body, signature);
    if constructed.Thrown? {
      reply := Failure("Webhook Error: " + constructed.error);
      return;
    }
    match constructed.value
    case CheckoutSessionCompleted(customerId, mode, subscription, amountTotal, currency) =>
      var customer := customers(customerId);
      if customer.Thrown? {
        reply := Failure(customer.error);
        return;
      }
      var userId := customer.value.metadataUserId;
      if Truthy(userId) && mode == "subscription" && Truthy(subscription) {
        var sub := subscriptions(subscription.value);
        if sub.Thrown? {
          reply := Failure(sub.error);
          return;
        }
        db.InsertPayment(SubscriptionPayment(
          userId.value, customerId, subscription.value, sub.value.status, amountTotal, currency, nowMs));
        db.SetPlan(userId.value, PlanPremium, Some(nowMs));
      }
      reply := Success(Received);
    case InvoicePaymentSucceeded(subscriptionId) =>
      var sub := subscriptions(subscriptionId);
      if sub.Thrown? {
        reply := Failure(sub.error);
        return;
      }
      var customer := customers(sub.value.customer);
      if customer.Thrown? {
        reply := Failure(customer.error);
        return;
      }
      var userId := customer.value.metadataUserId;
      if Truthy(userId) {
        db.SetStatus(subscriptionId, userId.value, sub.value.status);
      }
      reply := Success(Received);
    case CustomerSubscriptionDeleted(subscriptionId, customerId) =>
      var customer := customers(customerId);
      if customer.Thrown? {
        reply := Failure(customer.error);
        return;
      }
      var userId := customer.value.metadataUserId;
      if Truthy(userId) {
        db.SetStatus(subscriptionId, userId.value, "canceled");
        db.SetPlan(userId.value, PlanFree, Some(nowMs));
      }
      reply := Success(Received);
    case OtherEvent(_) =>
      reply := Success(Received);
  }

  /** Once a subscription is deleted, a late `invoice.payment_succeeded` for it
      overwrites the "canceled" status of its rows with the provider's status:
      the last delivery decides the rows' status. */
  lemma InvoiceAfterDeletionOverwritesCanceled(payments: seq<PaymentRow>, subscriptionId: string, userId: string, status: string)
    ensures SetSubscriptionStatus(SetSubscriptionStatus(payments, subscriptionId, userId, "canceled"), subscriptionId, userId, status)
         == SetSubscriptionStatus(payments, subscriptionId, userId, status)
  {
    SetSubscriptionStatusLastWins(payments, subscriptionId, userId, "canceled", status);
  }
}
