/** The `check-subscription` handler: report the caller's plan and this
    month's API usage, downgrading to free on the way when Stripe says the
    subscription behind the newest active payment has lapsed. The Stripe
    `subscriptions.retrieve` call is the parameter `subscriptionStatus`;
    `monthStart` is the first instant of the current calendar month. */
module CheckSubscription {
  import opened Common
  import opened Tables
  import opened Store

  const NotAuthenticatedMessage := "User not authenticated"
  const FreeRequestLimit: nat := 100

  /** The response body: `{ plan, apiRequests: { used, limit } }`, a null limit
      meaning unlimited. */
  datatype Report = Report(plan: string, used: nat, limit: Option<nat>)

  function ProfileOf(profiles: Profiles, id: string): Option<ProfileRow>
  {
    if id in profiles then Some(profiles[id]) else None
  }

  predicate IsPremium(profile: Option<ProfileRow>)
  {
    profile.Some? && profile.value.plan == PlanPremium
  }

  /** `profile?.plan || "free"`: the stored plan string, or free without one. */
  function ReportedPlan(profile: Option<ProfileRow>): (plan: string)
    ensures plan != ""
    ensures profile.Some? && profile.value.plan != "" ==> plan == profile.value.plan
    ensures !(profile.Some? && profile.value.plan != "") ==> plan == PlanFree
  {
    if profile.Some? && profile.value.plan != "" then profile.value.plan else PlanFree
  }

  /** Premium is unlimited; every other plan gets the free quota. */
  function ReportedLimit(profile: Option<ProfileRow>): (limit: Option<nat>)
    ensures limit.None? <==> IsPremium(profile)
    ensures limit.Some? ==> limit.value == FreeRequestLimit
  {
    if IsPremium(profile) then None else Some(FreeRequestLimit)
  }

  /** The limit is null exactly when the reported plan is premium. */
  lemma ReportedLimitMatchesPlan(profile: Option<ProfileRow>)
    ensures ReportedLimit(profile).None? <==> ReportedPlan(profile) == PlanPremium
    ensures ReportedLimit(profile).Some? ==> ReportedLimit(profile).value == 100
  {
  }

  /** Requests the user made since the start of the month. */
  function MonthlyUsage(requests: seq<ApiRequestRow>, userId: string, monthStart: int): (used: nat)
    ensures used == |RowsInWindow(requests, userId, monthStart)|
  {
    RequestsInWindowCount(requests, userId, monthStart);
    |RequestsInWindow(requests, userId, monthStart)|
  }

  /** The Stripe subscription the handler asks about: only for a premium
      profile, and only that of the user's newest "active" payment row. */
  function SubscriptionToCheck(profiles: Profiles, payments: seq<PaymentRow>, userId: string): (sid: Option<string>)
    ensures sid.Some? ==> IsPremium(ProfileOf(profiles, userId))
    ensures sid.Some? ==> exists i :: 0 <= i < |payments| && IsActiveRowOf(payments[i], userId) && payments[i].stripeSubscriptionId == sid
    ensures sid.Some? ==> sid.value != ""
    // it is the subscription of the newest active row, and that one is always checked
    ensures sid.Some? ==>
      LatestActive(payments, userId).Some? && LatestActive(payments, userId).value.stripeSubscriptionId == sid
    ensures sid.Some? <==>
      && IsPremium(ProfileOf(profiles, userId))
      && LatestActive(payments, userId).Some?
      && Truthy(LatestActive(payments, userId).value.stripeSubscriptionId)
  {
    if !IsPremium(ProfileOf(profiles, userId)) then None
    else
      var newest := LatestActive(payments, userId);
      if newest.Some? && Truthy(newest.value.stripeSubscriptionId) then newest.value.stripeSubscriptionId else None
  }

  predicate StillEntitled(status: string)
  {
    status == "active" || status == "trialing"
  }

  /** The lazy downgrade fires: premium profile, an active payment with a
      subscription id, and a provider status that is neither active nor trialing. */
  predicate DowngradeDue(profiles: Profiles, payments: seq<PaymentRow>, userId: string, subscriptionStatus: string -> Outcome<string>)
  {
    var sid := SubscriptionToCheck(profiles, payments, userId);
    sid.Some? && subscriptionStatus(sid.value).Ok? && !StillEntitled(subscriptionStatus(sid.value).value)
  }

  method Handle(db: Store, user: Option<AuthUser>, subscriptionStatus: string -> Outcome<string>, monthStart: int)
    returns (reply: Reply<Report>)
    requires db.Valid()
    modifies db
    ensures db.Valid()
    ensures db.payments == old(db.payments) && db.apiRequests == old(db.apiRequests)
    // a request answered 400 leaves the database as it was
    ensures reply.Status() == 400 ==> unchanged(db)
    ensures db.nextRowId == old(db.nextRowId) && db.profiles.Keys == old(db.profiles.Keys)
    ensures user.None? ==> reply == Failure(NotAuthenticatedMessage) && unchanged(db)
    ensures user.Some? ==>
      var u := user.value;
      var sid := SubscriptionToCheck(old(db.profiles), old(db.payments), u.id);
      if sid.Some? && subscriptionStatus(sid.value).Thrown? then
        reply == Failure(subscriptionStatus(sid.value).error) && unchanged(db)
      else if DowngradeDue(old(db.profiles), old(db.payments), u.id, subscriptionStatus) then
        && db.profiles == UpdatePlan(old(db.profiles), u.id, PlanFree, None)
        && reply == Success(Report(PlanFree, 0, Some(FreeRequestLimit)))
      else
        && unchanged(db)
        && reply == Success(Report(
             ReportedPlan(ProfileOf(db.profiles, u.id)),
             MonthlyUsage(db.apiRequests, u.id, monthStart),
             ReportedLimit(ProfileOf(db.profiles, u.id))))
  {
    if user.None? {
      reply := Failure(NotAuthenticatedMessage);
      return;
    }
    var u := user.value;
    var profile := ProfileOf(db.profiles, u.id);
    if IsPremium(profile) {
      var newest := LatestActive(db.payments, u.id);
      if newest.Some? && Truthy(newest.value.stripeSubscriptionId) {
        var status := subscriptionStatus(newest.value.stripeSubscriptionId.value);
        if status.Thrown? {
          reply := Failure(status.error);
          return;
        }
        if !StillEntitled(status.value) {
          db.SetPlan(u.id, PlanFree, None);
          reply := Success(Report(PlanFree, 0, Some(FreeRequestLimit)));
          return;
        }
      }
    }
    var used := MonthlyUsage(db.apiRequests, u.id, monthStart);
    reply := Success(Report(ReportedPlan(profile), used, ReportedLimit(profile)));
  }

  /** Downgrading needs a payment row with status "active"; rows in any other
      status (the "paid" rows the Razorpay webhook writes, whatever their
      `valid_until`) never make the handler consult Stripe or downgrade. */
  lemma {:induction false} NoActiveRowNoDowngrade(profiles: Profiles, payments: seq<PaymentRow>, userId: string, subscriptionStatus: string -> Outcome<string>)
    requires forall i :: 0 <= i < |payments| ==> !IsActiveRowOf(payments[i], userId)
    ensures SubscriptionToCheck(profiles, payments, userId) == None
    ensures !DowngradeDue(profiles, payments, userId, subscriptionStatus)
  {
    assert LatestActive(payments, userId) == None;
  }

  /** A profile that is not premium is never downgraded and never checked. */
  lemma NotPremiumNoDowngrade(profiles: Profiles, payments: seq<PaymentRow>, userId: string, subscriptionStatus: string -> Outcome<string>)
    requires !IsPremium(ProfileOf(profiles, userId))
    ensures !DowngradeDue(profiles, payments, userId, subscriptionStatus)
  {
  }

  /** The payment row whose subscription is checked after a Razorpay
      `payment.authorized` update is one the update left untouched. */
  lemma {:induction false} RazorpayUpdateNotChecked(rows: seq<PaymentRow>, userId: string, orderId: string, paymentId: string, validUntil: int)
    ensures var after := MarkOrderPaid(rows, orderId, paymentId, validUntil);
            LatestActive(after, userId).Some? ==> LatestActive(after, userId).value in rows
  {
    var after := MarkOrderPaid(rows, orderId, paymentId, validUntil);
    var newest := LatestActive(after, userId);
    if newest.Some? {
      var i :| 0 <= i < |after| && after[i] == newest.value;
      assert !IsOrderRow(rows[i], orderId);
      assert after[i] == rows[i];
    }
  }
}
