/** The API usage tracker: record one row per tracked call, and check a quota
    against the number of the user's rows in a trailing window. Whether the
    store call fails is a parameter; `windowStart` is "now minus 30 calendar
    days" as the client's clock computes it. */
module ApiLimit {
  import opened Common
  import opened Tables
  import opened Store

  /** Records a call; a failed insert is reported as `false` and leaves the table as it was. */
  method TrackApiRequest(db: Store, userId: string, requestType: string, nowMs: int, storeFails: bool)
    returns (tracked: bool)
    requires db.Valid()
    modifies db
    ensures db.Valid()
    ensures tracked <==> !storeFails
    ensures tracked ==>
      && db.apiRequests == old(db.apiRequests) + [ApiRequestRow(old(db.nextRowId), userId, requestType, nowMs)]
      && db.profiles == old(db.profiles) && db.payments == old(db.payments)
    ensures !tracked ==> unchanged(db)
  {
    if storeFails {
      return false;
    }
    db.InsertApiRequest(ApiRequestRow(0, userId, requestType, nowMs));
    return true;
  }

  /** Quota check: `true` (exceeded) when the read fails, otherwise whether the
      user's requests since `windowStart` reach `limit`. */
  function HasExceededApiLimit(requests: seq<ApiRequestRow>, userId: string, limit: int, windowStart: int, readFails: bool): (exceeded: bool)
    ensures readFails ==> exceeded
    ensures !readFails ==> (exceeded <==> |RowsInWindow(requests, userId, windowStart)| >= limit)
  {
    RequestsInWindowCount(requests, userId, windowStart);
    readFails || |RequestsInWindow(requests, userId, windowStart)| >= limit
  }

  /** Fails closed: any read error reports the limit as exceeded. */
  lemma ReadErrorIsExceeded(requests: seq<ApiRequestRow>, userId: string, limit: int, windowStart: int)
    ensures HasExceededApiLimit(requests, userId, limit, windowStart, true)
  {
  }

  /** A user with no request in the window is within any positive limit; a
      limit of zero or less is always exceeded. */
  lemma {:induction false} FreshUserWithinLimit(requests: seq<ApiRequestRow>, userId: string, limit: int, windowStart: int)
    requires forall i :: 0 <= i < |requests| ==> !InWindow(requests[i], userId, windowStart)
    ensures HasExceededApiLimit(requests, userId, limit, windowStart, false) <==> limit <= 0
  {
  }

  /** Tracking a request never turns an exceeded answer into a non-exceeded one. */
  lemma {:induction false} TrackingKeepsExceeded(requests: seq<ApiRequestRow>, row: ApiRequestRow, userId: string, limit: int, windowStart: int)
    requires HasExceededApiLimit(requests, userId, limit, windowStart, false)
    ensures HasExceededApiLimit(requests + [row], userId, limit, windowStart, false)
  {
    RequestsInWindowAppend(requests, row, userId, windowStart);
  }

  /** Starting from no request in the window, the quota is reached exactly
      when `limit` requests have been tracked in it. */
  lemma {:induction false} ExceededOnceLimitTracked(requests: seq<ApiRequestRow>, tracked: seq<ApiRequestRow>, userId: string, limit: int, windowStart: int)
    requires forall i :: 0 <= i < |requests| ==> !InWindow(requests[i], userId, windowStart)
    requires forall i :: 0 <= i < |tracked| ==> InWindow(tracked[i], userId, windowStart)
    ensures HasExceededApiLimit(requests + tracked, userId, limit, windowStart, false) <==> |tracked| >= limit
  {
    RequestsInWindowGrow(requests, tracked, userId, windowStart);
    FreshUserWithinLimit(requests, userId, 1, windowStart);
  }

  /** Other users' requests do not count against the quota. */
  lemma {:induction false} OtherUsersDoNotCount(requests: seq<ApiRequestRow>, row: ApiRequestRow, userId: string, limit: int, windowStart: int)
    requires row.userId != userId
    ensures HasExceededApiLimit(requests + [row], userId, limit, windowStart, false)
        == HasExceededApiLimit(requests, userId, limit, windowStart, false)
  {
    RequestsInWindowAppend(requests, row, userId, windowStart);
  }
}
