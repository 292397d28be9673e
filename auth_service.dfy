/** `fetchProfile`: builds the client's view of the signed-in user from the
    `profiles` row and the user's `api_requests` of the last 30 days. Whether
    each of the two queries returns an error, and whether one throws, is a
    parameter. */
module AuthService {
  import opened Common
  import opened Tables
  import ApiLimit

  datatype Plan = Free | Premium

  datatype ApiUsage = ApiUsage(limit: nat, used: nat)

  datatype UserProfile = UserProfile(
    id: string,
    email: Option<string>,
    name: Option<string>,
    plan: Plan,
    apiRequests: ApiUsage)

  /** `30 * 24 * 60 * 60 * 1000`: thirty days of milliseconds. */
  const ThirtyDaysMs: int := 30 * 24 * 60 * 60 * 1000

  /** The stored plan string narrowed to the two client plans. */
  function NormalizePlan(stored: string): (p: Plan)
    ensures p == Premium <==> stored == "premium"
  {
    if stored == PlanPremium then Premium else Free
  }

  /** The request quota the client shows for a stored plan. */
  function ApiLimitFor(stored: string): (limit: nat)
    ensures limit == (if NormalizePlan(stored) == Premium then 25 else 10)
  {
    if stored == PlanPremium then 25 else 10
  }

  /** `null` when the profile query errors, throws or finds no row, and when
      the usage query throws (the surrounding `catch`); otherwise a profile
      whose usage is 0 when the usage query returns an error. */
  function FetchProfile(
    profiles: Profiles, requests: seq<ApiRequestRow>, userId: string, nowMs: int,
    profileQueryFails: bool, usageQueryThrows: bool, usageQueryFails: bool): (r: Option<UserProfile>)
    ensures r.None? <==> profileQueryFails || userId !in profiles || usageQueryThrows
    ensures r.Some? ==>
      var row := profiles[userId];
      && r.value.id == row.id && r.value.email == row.email && r.value.name == row.name
      && (r.value.plan == Premium <==> row.plan == "premium")
      && r.value.apiRequests.limit == (if row.plan == "premium" then 25 else 10)
    ensures r.Some? && usageQueryFails ==> r.value.apiRequests.used == 0
    ensures r.Some? && !usageQueryFails ==>
      r.value.apiRequests.used == |RequestsInWindow(requests, userId, nowMs - ThirtyDaysMs)|
  {
    if profileQueryFails || userId !in profiles || usageQueryThrows then None
    else
      var row := profiles[userId];
      var used := if usageQueryFails then 0 else |RequestsInWindow(requests, userId, nowMs - ThirtyDaysMs)|;
      Some(UserProfile(row.id, row.email, row.name, NormalizePlan(row.plan), ApiUsage(ApiLimitFor(row.plan), used)))
  }

  /** When the quota check's window is the same thirty days, the profile's
      counters agree with it: the profile shows `used >= limit` exactly when
      `hasExceededApiLimit` with that limit reports exceeded. */
  lemma FetchProfileAgreesWithQuotaCheck(
    profiles: Profiles, requests: seq<ApiRequestRow>, userId: string, nowMs: int)
    requires userId in profiles
    ensures var r := FetchProfile(profiles, requests, userId, nowMs, false, false, false);
            && r.Some?
            && (ApiLimit.HasExceededApiLimit(requests, userId, r.value.apiRequests.limit, nowMs - ThirtyDaysMs, false)
                <==> r.value.apiRequests.used >= r.value.apiRequests.limit)
  {
  }

  /** A usage query that returns an error changes only the usage counter,
      never whether a profile is returned. */
  lemma UsageErrorKeepsProfile(
    profiles: Profiles, requests: seq<ApiRequestRow>, userId: string, nowMs: int,
    profileQueryFails: bool, usageQueryThrows: bool)
    ensures var ok := FetchProfile(profiles, requests, userId, nowMs, profileQueryFails, usageQueryThrows, false);
            var failed := FetchProfile(profiles, requests, userId, nowMs, profileQueryFails, usageQueryThrows, true);
            && ok.Some? == failed.Some?
            && (ok.Some? ==> failed.value == ok.value.(apiRequests := ok.value.apiRequests.(used := 0)))
  {
  }
}
