/** The `razorpay-webhook` handler. The HMAC-SHA256 hex digest is the
    uninterpreted parameter `hmacHex(secret, body)`; JSON parsing of the body
    and the orders API lookup are the parameters `parse` and `fetchOrder`. */
module RazorpayWebhook {
  import opened Common
  import opened Tables
  import opened Store

  const InvalidSignatureMessage := "Invalid signature"
  const InvalidMetadataMessage := "Invalid payment metadata"

  /** The events the handler tells apart (by their `event` name); the parse
      maps `"payment.authorized"` and `"subscription.cancelled"` to the first
      two and every other name to `OtherEvent`. */
  datatype RazorpayEvent =
    | PaymentAuthorized(paymentId: string, orderId: string)
    | SubscriptionCancelled(notesUserId: Option<string>)
    | OtherEvent(name: string)

  /** What fetching the order answers: its `notes.userId`, or a thrown error. */
  datatype OrderLookup = OrderNotes(userId: Option<string>) | OrderLookupFailed(message: string)

  datatype Ack = Received

  /** The signature is valid exactly when it equals the hex HMAC of the raw body. */
  function VerifyWebhookSignature(body: string, signature: string, secret: string, hmacHex: (string, string) -> string): (ok: bool)
    ensures ok <==> signature == hmacHex(secret, body)
  {
    hmacHex(secret, body) == signature
  }

  /** The guard of the handler: a signature header is present, non-empty and valid. */
  predicate SignatureAccepted(signature: Option<string>, body: string, secret: string, hmacHex: (string, string) -> string)
  {
    Truthy(signature) && VerifyWebhookSignature(body, signature.value, secret, hmacHex)
  }

  /** Handles one delivery at clock reading `nowMs`; `validUntil` is that
      instant plus one calendar month. */
  method Handle(
    db: Store, signature: Option<string>, body: string, secret: string,
    hmacHex: (string, string) -> string, parse: string -> Outcome<RazorpayEvent>,
    fetchOrder: string -> OrderLookup, nowMs: int, validUntil: int)
    returns (reply: Reply<Ack>)
    requires db.Valid()
    modifies db
    ensures db.Valid()
    ensures HistoryKept(old(db.payments), db.payments)
    // a request answered 400 leaves the database as it was
    ensures reply.Status() == 400 ==> unchanged(db)
    // a bad signature is refused before the body is parsed
    ensures !SignatureAccepted(signature, body, secret, hmacHex) ==>
      reply == Failure(InvalidSignatureMessage) && unchanged(db)
    ensures SignatureAccepted(signature, body, secret, hmacHex) && parse(body).Thrown? ==>
      reply == Failure(parse(body).error) && unchanged(db)
    // payment.authorized
    ensures SignatureAccepted(signature, body, secret, hmacHex) && parse(body).Ok? &&
            parse(body).value.PaymentAuthorized? ==>
      var e := parse(body).value;
      match fetchOrder(e.orderId)
      case OrderLookupFailed(message) => reply == Failure(message) && unchanged(db)
      case OrderNotes(userId) =>
        if !Truthy(userId) then reply == Failure(InvalidMetadataMessage) && unchanged(db)
        else
          && reply == Success(Received)
          && (db.profiles, db.payments) == AfterPaymentAuthorized(
               old(db.profiles), old(db.payments), e.orderId, e.paymentId, userId.value, nowMs, validUntil)
          && db.apiRequests == old(db.apiRequests) && db.nextRowId == old(db.nextRowId)
    // subscription.cancelled
    ensures SignatureAccepted(signature, body, secret, hmacHex) && parse(body).Ok? &&
            parse(body).value.SubscriptionCancelled? ==>
      var userId := parse(body).value.notesUserId;
      && reply == Success(Received)
      && (Truthy(userId) ==> db.profiles == UpdatePlan(old(db.profiles), userId.value, PlanFree, Some(nowMs)))
      && (!Truthy(userId) ==> db.profiles == old(db.profiles))
      && db.payments == old(db.payments) && db.apiRequests == old(db.apiRequests)
      && db.nextRowId == old(db.nextRowId)
    // anything else is acknowledged and ignored
    ensures SignatureAccepted(signature, body, secret, hmacHex) && parse(body).Ok? &&
            parse(body).value.OtherEvent? ==>
      reply == Success(Received) && unchanged(db)
  {
    if !Truthy(signature) || !VerifyWebhookSignature(body, signature.value, secret, hmacHex) {
      reply := Failure(InvalidSignatureMessage);
      return;
    }
    var parsed := parse(body);
    if parsed.Thrown? {
      reply := Failure(parsed.error);
      return;
    }
    match parsed.value
    case PaymentAuthorized(paymentId, orderId) =>
      var lookup := fetchOrder(orderId);
      if lookup.OrderLookupFailed? {
        reply := Failure(lookup.message);
        return;
      }
      var userId := lookup.userId;
      if !Truthy(userId) {
        reply := Failure(InvalidMetadataMessage);
        return;
      }
      db.MarkPaid(orderId, paymentId, validUntil);
      db.SetPlan(userId.value, PlanPremium, Some(nowMs));
      reply := Success(Received);
    case SubscriptionCancelled(userId) =>
      if Truthy(userId) {
        db.SetPlan(userId.value, PlanFree, Some(nowMs));
      }
      reply := Success(Received);
    case OtherEvent(_) =>
      reply := Success(Received);
  }

  /** The tables a `payment.authorized` delivery leaves behind, as a value:
      the order's payment rows marked paid, then the user made premium. */
  function AfterPaymentAuthorized(
    profiles: Profiles, payments: seq<PaymentRow>, orderId: string, paymentId: string,
    userId: string, nowMs: int, validUntil: int): (Profiles, seq<PaymentRow>)
  {
    (UpdatePlan(profiles, userId, PlanPremium, Some(nowMs)), MarkOrderPaid(payments, orderId, paymentId, validUntil))
  }

  /** At-least-once delivery is harmless: delivering the same `payment.authorized`
      a second time, later, leaves the payments as the first delivery left them and
      the user premium; only the profile's `updated_at` moves on. */
  lemma PaymentAuthorizedReplay(
    profiles: Profiles, payments: seq<PaymentRow>, orderId: string, paymentId: string,
    userId: string, now1: int, valid1: int, now2: int, valid2: int)
    requires paymentId != orderId
    ensures var once := AfterPaymentAuthorized(profiles, payments, orderId, paymentId, userId, now1, valid1);
            var twice := AfterPaymentAuthorized(once.0, once.1, orderId, paymentId, userId, now2, valid2);
            && twice.1 == once.1
            && twice.0 == UpdatePlan(profiles, userId, PlanPremium, Some(now2))
            && twice.0.Keys == profiles.Keys
            && (userId in profiles ==> twice.0[userId].plan == PlanPremium)
  {
    MarkOrderPaidReplay(payments, orderId, paymentId, valid1, valid2);
    UpdatePlanTwice(profiles, userId, PlanPremium, Some(now1), Some(now2));
  }

  /** Replaying at the same instant reproduces the same tables exactly. */
  lemma PaymentAuthorizedIdempotent(
    profiles: Profiles, payments: seq<PaymentRow>, orderId: string, paymentId: string,
    userId: string, nowMs: int, validUntil: int)
    ensures var once := AfterPaymentAuthorized(profiles, payments, orderId, paymentId, userId, nowMs, validUntil);
            AfterPaymentAuthorized(once.0, once.1, orderId, paymentId, userId, nowMs, validUntil) == once
  {
    MarkOrderPaidIdempotent(payments, orderId, paymentId, validUntil);
    UpdatePlanTwice(profiles, userId, PlanPremium, Some(nowMs), Some(nowMs));
  }
}
