/** The hosted database as an in-memory store: the three tables the
    serverless handlers read and write, and the counter from which the
    database draws ids for inserted rows. */
module Store {
  import opened Common
  import opened Tables

  class Store {
    var profiles: Profiles
    var payments: seq<PaymentRow>
    var apiRequests: seq<ApiRequestRow>
    var nextRowId: nat

    /** One profile per identity, keyed by its id, and every row id drawn
        from the counter, so that ids are distinct. */
    ghost predicate Valid()
      reads this
    {
      && KeyedById(profiles)
      && (forall i :: 0 <= i < |payments| ==> payments[i].id < nextRowId)
      && (forall i, j :: 0 <= i < j < |payments| ==> payments[i].id != payments[j].id)
      && (forall i :: 0 <= i < |apiRequests| ==> apiRequests[i].id < nextRowId)
      && (forall i, j :: 0 <= i < j < |apiRequests| ==> apiRequests[i].id != apiRequests[j].id)
    }

    constructor (profiles0: Profiles)
      requires KeyedById(profiles0)
      ensures Valid()
      ensures profiles == profiles0 && payments == [] && apiRequests == [] && nextRowId == 0
    {
      profiles := profiles0;
      payments := [];
      apiRequests := [];
      nextRowId := 0;
    }

    /** `insert` into `payments`: the row gets a fresh id; the other tables are untouched. */
    method InsertPayment(row: PaymentRow)
      requires Valid()
      modifies this
      ensures Valid()
      ensures payments == old(payments) + [row.(id := old(nextRowId))]
      ensures HistoryKept(old(payments), payments)
      ensures nextRowId == old(nextRowId) + 1
      ensures profiles == old(profiles) && apiRequests == old(apiRequests)
    {
      payments := payments + [row.(id := nextRowId)];
      nextRowId := nextRowId + 1;
    }

    /** `insert` into `api_requests`. */
    method InsertApiRequest(row: ApiRequestRow)
      requires Valid()
      modifies this
      ensures Valid()
      ensures apiRequests == old(apiRequests) + [row.(id := old(nextRowId))]
      ensures nextRowId == old(nextRowId) + 1
      ensures profiles == old(profiles) && payments == old(payments)
    {
      apiRequests := apiRequests + [row.(id := nextRowId)];
      nextRowId := nextRowId + 1;
    }

    /** `update` on `profiles` filtered by id. */
    method SetPlan(id: string, plan: string, stamp: Option<int>)
      requires Valid()
      modifies this
      ensures Valid()
      ensures profiles == UpdatePlan(old(profiles), id, plan, stamp)
      ensures payments == old(payments) && apiRequests == old(apiRequests) && nextRowId == old(nextRowId)
    {
      UpdatePlanKeepsKeying(profiles, id, plan, stamp);
      profiles := UpdatePlan(profiles, id, plan, stamp);
    }

    /** `update` on `payments` filtered by the Razorpay order id. */
    method MarkPaid(orderId: string, paymentId: string, validUntil: int)
      requires Valid()
      modifies this
      ensures Valid()
      ensures payments == MarkOrderPaid(old(payments), orderId, paymentId, validUntil)
      ensures HistoryKept(old(payments), payments)
      ensures profiles == old(profiles) && apiRequests == old(apiRequests) && nextRowId == old(nextRowId)
    {
      payments := MarkOrderPaid(payments, orderId, paymentId, validUntil);
    }

    /** `update` on `payments` filtered by Stripe subscription id and user id. */
    method SetStatus(subscriptionId: string, userId: string, status: string)
      requires Valid()
      modifies this
      ensures Valid()
      ensures payments == SetSubscriptionStatus(old(payments), subscriptionId, userId, status)
      ensures HistoryKept(old(payments), payments)
      ensures profiles == old(profiles) && apiRequests == old(apiRequests) && nextRowId == old(nextRowId)
    {
      payments := SetSubscriptionStatus(payments, subscriptionId, userId, status);
    }
  }
}
