/** Rows of the three tables the handlers act on (`profiles`, `payments`,
    `api_requests`) and the conditional updates the handlers issue against them.
    Timestamps are integers (milliseconds); the store assigns row ids. */
module Tables {
  import opened Common

  const PlanFree := "free"
  const PlanPremium := "premium"

  /** A `profiles` row. `id` is the identity provider's user id. */
  datatype ProfileRow = ProfileRow(
    id: string,
    email: Option<string>,
    name: Option<string>,
    plan: string,
    createdAt: int,
    updatedAt: int)

  /** A `payments` row. The `stripe*` columns are also used by the Razorpay
      flow: `stripePaymentId` holds first the order id, then the payment id. */
  datatype PaymentRow = PaymentRow(
    id: nat,
    userId: string,
    amount: Option<int>,
    currency: Option<string>,
    plan: string,
    status: Option<string>,
    stripeCustomerId: Option<string>,
    stripePaymentId: Option<string>,
    stripeSubscriptionId: Option<string>,
    validUntil: Option<int>,
    createdAt: int)

  /** An `api_requests` row: one tracked call. */
  datatype ApiRequestRow = ApiRequestRow(
    id: nat,
    userId: string,
    requestType: string,
    createdAt: int)

  type Profiles = map<string, ProfileRow>

  /** The user the identity provider resolves a bearer token to. */
  datatype AuthUser = AuthUser(id: string, email: Option<string>)

  // ---------------------------------------------------------------------------
  // profiles: `update({ plan, [updated_at] }).eq("id", userId)`
  // ---------------------------------------------------------------------------

  /** The profile row after its plan is set; `stamp` is the `updated_at` the
      handler writes alongside, if it writes one. */
  function WithPlan(row: ProfileRow, plan: string, stamp: Option<int>): (updated: ProfileRow)
  {
    row.(plan := plan, updatedAt := if stamp.Some? then stamp.value else row.updatedAt)
  }

  /** Sets the plan of the profile whose id is `id`; a missing profile matches
      no row, so the table stays as it was. No row is created or removed. */
  function UpdatePlan(profiles: Profiles, id: string, plan: string, stamp: Option<int>): (r: Profiles)
    ensures r.Keys == profiles.Keys
    ensures id in r ==> r[id].plan == plan && r[id] == WithPlan(profiles[id], plan, stamp)
    ensures id !in profiles ==> r == profiles
    ensures forall k :: k in profiles && k != id ==> r[k] == profiles[k]
  {
    if id in profiles then profiles[id := WithPlan(profiles[id], plan, stamp)] else profiles
  }

  /** Every row is keyed by its own id. */
  ghost predicate KeyedById(profiles: Profiles)
  {
    forall k :: k in profiles ==> profiles[k].id == k
  }

  lemma UpdatePlanKeepsKeying(profiles: Profiles, id: string, plan: string, stamp: Option<int>)
    requires KeyedById(profiles)
    ensures KeyedById(UpdatePlan(profiles, id, plan, stamp))
  {
  }

  /** Writing the same plan twice is writing it once with the second stamp
      (when the second write stamps, or neither does). */
  lemma {:induction false} UpdatePlanTwice(profiles: Profiles, id: string, plan: string, s1: Option<int>, s2: Option<int>)
    requires s2.Some? || s1.None?
    ensures UpdatePlan(UpdatePlan(profiles, id, plan, s1), id, plan, s2) == UpdatePlan(profiles, id, plan, s2)
  {
    var once := UpdatePlan(profiles, id, plan, s1);
    var lhs := UpdatePlan(once, id, plan, s2);
    var rhs := UpdatePlan(profiles, id, plan, s2);
    assert lhs.Keys == rhs.Keys;
    forall k | k in lhs ensures lhs[k] == rhs[k] {
      if k == id {
        assert once[id] == WithPlan(profiles[id], plan, s1);
      }
    }
  }

  // ---------------------------------------------------------------------------
  // payments: Razorpay `update({ status: "paid", stripe_payment_id, valid_until })
  //                     .eq("stripe_payment_id", orderId)`
  // ---------------------------------------------------------------------------

  predicate IsOrderRow(row: PaymentRow, orderId: string)
  {
    row.stripePaymentId == Some(orderId)
  }

  function PaidRow(row: PaymentRow, paymentId: string, validUntil: int): PaymentRow
  {
    row.(status := Some("paid"), stripePaymentId := Some(paymentId), validUntil := Some(validUntil))
  }

  /** Every row keyed by the order id is marked paid and re-keyed by the
      payment id; every other row is left as it was. */
  function MarkOrderPaid(rows: seq<PaymentRow>, orderId: string, paymentId: string, validUntil: int): (r: seq<PaymentRow>)
    ensures |r| == |rows|
    ensures forall i :: 0 <= i < |rows| && IsOrderRow(rows[i], orderId) ==> r[i] == PaidRow(rows[i], paymentId, validUntil)
    ensures forall i :: 0 <= i < |rows| && !IsOrderRow(rows[i], orderId) ==> r[i] == rows[i]
  {
    if rows == [] then []
    else
      var head := if IsOrderRow(rows[0], orderId) then PaidRow(rows[0], paymentId, validUntil) else rows[0];
      [head] + MarkOrderPaid(rows[1..], orderId, paymentId, validUntil)
  }

  /** After the update no row is keyed by the order id any more, provided the
      payment id differs from the order id. */
  lemma MarkOrderPaidConsumesOrder(rows: seq<PaymentRow>, orderId: string, paymentId: string, validUntil: int)
    requires paymentId != orderId
    ensures forall i :: 0 <= i < |rows| ==> !IsOrderRow(MarkOrderPaid(rows, orderId, paymentId, validUntil)[i], orderId)
  {
  }

  /** With no row keyed by the order id, the update changes nothing. */
  lemma {:induction false} MarkOrderPaidNoMatch(rows: seq<PaymentRow>, orderId: string, paymentId: string, validUntil: int)
    requires forall i :: 0 <= i < |rows| ==> !IsOrderRow(rows[i], orderId)
    ensures MarkOrderPaid(rows, orderId, paymentId, validUntil) == rows
  {
    var r := MarkOrderPaid(rows, orderId, paymentId, validUntil);
    assert forall i :: 0 <= i < |rows| ==> r[i] == rows[i];
  }

  /** Replaying the update, even with a later expiry, leaves the table as the
      first delivery left it. */
  lemma MarkOrderPaidReplay(rows: seq<PaymentRow>, orderId: string, paymentId: string, v1: int, v2: int)
    requires paymentId != orderId
    ensures MarkOrderPaid(MarkOrderPaid(rows, orderId, paymentId, v1), orderId, paymentId, v2)
         == MarkOrderPaid(rows, orderId, paymentId, v1)
  {
    var once := MarkOrderPaid(rows, orderId, paymentId, v1);
    MarkOrderPaidConsumesOrder(rows, orderId, paymentId, v1);
    MarkOrderPaidNoMatch(once, orderId, paymentId, v2);
  }

  /** Applying the same update twice, with the same `valid_until`, is applying
      it once, whatever the two ids are. */
  lemma MarkOrderPaidIdempotent(rows: seq<PaymentRow>, orderId: string, paymentId: string, validUntil: int)
    ensures MarkOrderPaid(MarkOrderPaid(rows, orderId, paymentId, validUntil), orderId, paymentId, validUntil)
         == MarkOrderPaid(rows, orderId, paymentId, validUntil)
  {
    var once := MarkOrderPaid(rows, orderId, paymentId, validUntil);
    var twice := MarkOrderPaid(once, orderId, paymentId, validUntil);
    forall i | 0 <= i < |rows| ensures twice[i] == once[i] {
    }
  }

  /** The Razorpay update never produces a row with status "active". */
  lemma MarkOrderPaidAddsNoActiveRow(rows: seq<PaymentRow>, orderId: string, paymentId: string, validUntil: int)
    ensures forall i :: 0 <= i < |rows| && MarkOrderPaid(rows, orderId, paymentId, validUntil)[i].status == Some("active")
              ==> rows[i] == MarkOrderPaid(rows, orderId, paymentId, validUntil)[i]
  {
  }

  // ---------------------------------------------------------------------------
  // payments: Stripe `update({ status }).eq("stripe_subscription_id", s).eq("user_id", u)`
  // ---------------------------------------------------------------------------

  predicate IsSubscriptionRow(row: PaymentRow, subscriptionId: string, userId: string)
  {
    row.stripeSubscriptionId == Some(subscriptionId) && row.userId == userId
  }

  /** Every row of that subscription and that user gets the status; the rest
      are left as they were. */
  function SetSubscriptionStatus(rows: seq<PaymentRow>, subscriptionId: string, userId: string, status: string): (r: seq<PaymentRow>)
    ensures |r| == |rows|
    ensures forall i :: 0 <= i < |rows| && IsSubscriptionRow(rows[i], subscriptionId, userId) ==> r[i] == rows[i].(status := Some(status))
    ensures forall i :: 0 <= i < |rows| && !IsSubscriptionRow(rows[i], subscriptionId, userId) ==> r[i] == rows[i]
  {
    if rows == [] then []
    else
      var head := if IsSubscriptionRow(rows[0], subscriptionId, userId) then rows[0].(status := Some(status)) else rows[0];
      [head] + SetSubscriptionStatus(rows[1..], subscriptionId, userId, status)
  }

  /** Applying a later status overrides an earlier one: only the last delivery counts. */
  lemma {:induction false} SetSubscriptionStatusLastWins(rows: seq<PaymentRow>, subscriptionId: string, userId: string, s1: string, s2: string)
    ensures SetSubscriptionStatus(SetSubscriptionStatus(rows, subscriptionId, userId, s1), subscriptionId, userId, s2)
         == SetSubscriptionStatus(rows, subscriptionId, userId, s2)
  {
    var once := SetSubscriptionStatus(rows, subscriptionId, userId, s1);
    var lhs := SetSubscriptionStatus(once, subscriptionId, userId, s2);
    var rhs := SetSubscriptionStatus(rows, subscriptionId, userId, s2);
    forall i | 0 <= i < |rows| ensures lhs[i] == rhs[i] {
      assert IsSubscriptionRow(once[i], subscriptionId, userId) == IsSubscriptionRow(rows[i], subscriptionId, userId);
    }
  }

  // ---------------------------------------------------------------------------
  // payments are an audit trail: handlers only append rows or rewrite columns
  // ---------------------------------------------------------------------------

  /** Every row of `before` is still at its place in `after`, with the same id,
      owner and creation time. */
  ghost predicate HistoryKept(before: seq<PaymentRow>, after: seq<PaymentRow>)
  {
    |before| <= |after| &&
    forall i :: 0 <= i < |before| ==>
      after[i].id == before[i].id && after[i].userId == before[i].userId && after[i].createdAt == before[i].createdAt
  }

  // ---------------------------------------------------------------------------
  // payments: `.eq("user_id", u).eq("status", "active").order("created_at", desc).limit(1)`
  // ---------------------------------------------------------------------------

  predicate IsActiveRowOf(row: PaymentRow, userId: string)
  {
    row.userId == userId && row.status == Some("active")
  }

  /** The user's newest row with status "active"; among rows created at the
      same time, the one inserted last. */
  function LatestActive(rows: seq<PaymentRow>, userId: string): (r: Option<PaymentRow>)
    ensures r.None? <==> forall i :: 0 <= i < |rows| ==> !IsActiveRowOf(rows[i], userId)
    ensures r.Some? ==> r.value in rows && IsActiveRowOf(r.value, userId)
    ensures r.Some? ==> forall i :: 0 <= i < |rows| && IsActiveRowOf(rows[i], userId) ==> rows[i].createdAt <= r.value.createdAt
  {
    if rows == [] then None
    else
      var last := rows[|rows| - 1];
      var best := LatestActive(rows[..|rows| - 1], userId);
      if IsActiveRowOf(last, userId) && (best.None? || best.value.createdAt <= last.createdAt) then Some(last)
      else best
  }

  // ---------------------------------------------------------------------------
  // api_requests: `.eq("user_id", u).gte("created_at", since)`
  // ---------------------------------------------------------------------------

  predicate InWindow(row: ApiRequestRow, userId: string, since: int)
  {
    row.userId == userId && row.createdAt >= since
  }

  /** The positions of the user's requests created at or after `since`: what
      the query's `count` counts. */
  ghost function RowsInWindow(rows: seq<ApiRequestRow>, userId: string, since: int): set<nat>
  {
    set i: nat | i < |rows| && InWindow(rows[i], userId, since)
  }

  /** The positions in a table grown by one row: the old ones, plus the new one if it matches. */
  lemma RowsInWindowSnoc(rows: seq<ApiRequestRow>, userId: string, since: int)
    requires rows != []
    ensures RowsInWindow(rows, userId, since)
         == RowsInWindow(rows[..|rows| - 1], userId, since)
          + (if InWindow(rows[|rows| - 1], userId, since) then {|rows| - 1} else {})
  {
    var n := |rows| - 1;
    forall i: nat | i < n ensures rows[..n][i] == rows[i] {
    }
  }

  /** The user's requests created at or after `since`, in table order. */
  function RequestsInWindow(rows: seq<ApiRequestRow>, userId: string, since: int): (r: seq<ApiRequestRow>)
    ensures |r| <= |rows|
    ensures forall x :: x in r <==> x in rows && InWindow(x, userId, since)
  {
    if rows == [] then []
    else
      var init := RequestsInWindow(rows[..|rows| - 1], userId, since);
      var last := rows[|rows| - 1];
      assert rows == rows[..|rows| - 1] + [last];
      if InWindow(last, userId, since) then init + [last] else init
  }

  /** There are as many requests in the window as positions of matching rows:
      the filter's length is the query's `count`. */
  lemma {:induction false} RequestsInWindowCount(rows: seq<ApiRequestRow>, userId: string, since: int)
    ensures |RequestsInWindow(rows, userId, since)| == |RowsInWindow(rows, userId, since)|
  {
    if rows != [] {
      RequestsInWindowCount(rows[..|rows| - 1], userId, since);
      RowsInWindowSnoc(rows, userId, since);
    }
  }

  /** Appending a row adds it to the window exactly when it falls in it. */
  lemma {:induction false} RequestsInWindowAppend(rows: seq<ApiRequestRow>, x: ApiRequestRow, userId: string, since: int)
    ensures RequestsInWindow(rows + [x], userId, since)
         == RequestsInWindow(rows, userId, since) + (if InWindow(x, userId, since) then [x] else [])
  {
    assert (rows + [x])[..|rows + [x]| - 1] == rows;
  }

  /** Appending rows that all fall in the window raises the count by their number. */
  lemma {:induction false} RequestsInWindowGrow(rows: seq<ApiRequestRow>, extra: seq<ApiRequestRow>, userId: string, since: int)
    requires forall i :: 0 <= i < |extra| ==> InWindow(extra[i], userId, since)
    ensures |RequestsInWindow(rows + extra, userId, since)| == |RequestsInWindow(rows, userId, since)| + |extra|
  {
    if extra == [] {
      assert rows + extra == rows;
    } else {
      var init := extra[..|extra| - 1];
      var x := extra[|extra| - 1];
      RequestsInWindowGrow(rows, init, userId, since);
      assert rows + extra == (rows + init) + [x];
      RequestsInWindowAppend(rows + init, x, userId, since);
    }
  }

  /** A window that starts later holds no more requests. */
  lemma {:induction false} RequestsInWindowShrinks(rows: seq<ApiRequestRow>, userId: string, early: int, late: int)
    requires early <= late
    ensures |RequestsInWindow(rows, userId, late)| <= |RequestsInWindow(rows, userId, early)|
  {
    if rows != [] {
      RequestsInWindowShrinks(rows[..|rows| - 1], userId, early, late);
    }
  }
}
