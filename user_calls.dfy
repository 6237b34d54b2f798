/**
 * The request plans of the user calls (`src/api_calls/user.rs`). Each call checks
 * its identifier arguments with `check_id_slug` and, only when they pass, hands
 * one request to the dispatcher; the check's error is returned unchanged otherwise.
 */
module UserCalls {
  import opened Wrappers
  import opened Requests

  /** `get_user`: GET `/user/{user_id}`. */
  function GetUser<E>(check: Checker<E>, userId: string): (r: Result<Request, E>)
    ensures r.Err? <==> check(userId).Fail?
    ensures r.Err? ==> check(userId) == Fail(r.error)
    ensures r.Ok? ==> r.value.Get? && r.value.Verb() == GET && r.value.path == ["user", userId]
    ensures r.Ok? ==> r.value.Query() == [] && r.value.Body() == None
    ensures r.Ok? ==> CheckedRoute(check, r.value.path)
  {
    Then(check(userId), Get(["user", userId]))
  }

  /** `get_current_user`: GET `/user`, with no identifier to check. */
  function GetCurrentUser(): (r: Request)
    ensures r.Get? && r.Verb() == GET && r.path == ["user"]
    ensures r.Query() == [] && r.Body() == None
    ensures |r.path| == 1 && r.path[0] in COLLECTIONS
  {
    Get(["user"])
  }

  /**
   * `get_multiple_users`: checks every identifier in input order and returns the
   * first failure; only when all pass is one GET to `/users` built, whose single
   * query pair `ids` is the JSON array of all identifiers. The ghost `examined`
   * lists the identifiers handed to the check, in order.
   */
  method GetMultipleUsers<E>(check: Checker<E>, userIds: seq<string>)
    returns (r: Result<Request, E>, ghost examined: seq<string>)
    ensures FirstFailure(check, userIds).Some? ==>
      && r == Err(FirstFailure(check, userIds).value.1)
      && examined == userIds[..FirstFailure(check, userIds).value.0 + 1]
    ensures FirstFailure(check, userIds).None? ==>
      && r == Ok(IdsRequest(["users"], userIds))
      && examined == userIds
    ensures r.Ok? ==> CheckedRoute(check, r.value.path)
  {
    var i := 0;
    examined := [];
    while i < |userIds|
      invariant 0 <= i <= |userIds|
      invariant forall j :: 0 <= j < i ==> check(userIds[j]).Pass?
      invariant examined == userIds[..i]
    {
      examined := examined + [userIds[i]];
      var outcome := check(userIds[i]);
      if outcome.Fail? {
        r := Err(outcome.error);
        return;
      }
      i := i + 1;
    }
    r := Ok(IdsRequest(["users"], userIds));
  }

  /** `list_projects`: GET `/user/{user_id}/projects`. */
  function ListProjects<E>(check: Checker<E>, userId: string): (r: Result<Request, E>)
    ensures r.Err? <==> check(userId).Fail?
    ensures r.Err? ==> check(userId) == Fail(r.error)
    ensures r.Ok? ==> r.value.Get? && r.value.Verb() == GET && r.value.path == ["user", userId, "projects"]
    ensures r.Ok? ==> r.value.Query() == [] && r.value.Body() == None
    ensures r.Ok? ==> CheckedRoute(check, r.value.path)
  {
    Then(check(userId), Get(["user", userId, "projects"]))
  }

  /** `get_notifications`: GET `/user/{user_id}/notifications`. */
  function GetNotifications<E>(check: Checker<E>, userId: string): (r: Result<Request, E>)
    ensures r.Err? <==> check(userId).Fail?
    ensures r.Err? ==> check(userId) == Fail(r.error)
    ensures r.Ok? ==> r.value.Get? && r.value.Verb() == GET && r.value.path == ["user", userId, "notifications"]
    ensures r.Ok? ==> r.value.Query() == [] && r.value.Body() == None
    ensures r.Ok? ==> CheckedRoute(check, r.value.path)
  {
    Then(check(userId), Get(["user", userId, "notifications"]))
  }

  /** `followed_projects`: GET `/user/{user_id}/follows`. */
  function FollowedProjects<E>(check: Checker<E>, userId: string): (r: Result<Request, E>)
    ensures r.Err? <==> check(userId).Fail?
    ensures r.Err? ==> check(userId) == Fail(r.error)
    ensures r.Ok? ==> r.value.Get? && r.value.Verb() == GET && r.value.path == ["user", userId, "follows"]
    ensures r.Ok? ==> r.value.Query() == [] && r.value.Body() == None
    ensures r.Ok? ==> CheckedRoute(check, r.value.path)
  {
    Then(check(userId), Get(["user", userId, "follows"]))
  }

  /**
   * `submit_report`: checks `item_id` only, then POSTs to `/report` a body that
   * carries the four arguments unchanged. Neither the report type nor the text is
   * checked, so they cannot make the call fail.
   */
  function SubmitReport<E>(
    check: Checker<E>, reportType: string, itemId: string, itemType: ReportItemType, body: string)
    : (r: Result<Request, E>)
    ensures r.Err? <==> check(itemId).Fail?
    ensures r.Err? ==> check(itemId) == Fail(r.error)
    ensures r.Ok? ==> r.value.Verb() == POST && r.value.path == ["report"]
    ensures r.Ok? ==> r.value.Query() == []
    ensures r.Ok? ==> r.value.Body() == Some(ReportSubmission(reportType, itemId, itemType, body))
  {
    Then(check(itemId), Post(["report"], ReportSubmission(reportType, itemId, itemType, body)))
  }
}
