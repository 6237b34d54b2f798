/**
 * What an API call decides before any network traffic: either the identifier check
 * fails, or the call hands one request to the dispatcher (`get`, `get_with_query`
 * or `post`), given by its path segments, its query pairs and its body.
 *
 * The identifier check `check_id_slug` and the URL builder `join_all` are not part
 * of this model. The check is a parameter of every call that checks an identifier
 * (`Checker<E>`), so nothing here depends on which identifiers it accepts or which
 * error it returns. The path is recorded as the segment sequence handed to
 * `join_all`, not as the URL built from it.
 */
module Requests {
  import opened Wrappers
  import Json

  /** The identifier check (`check_id_slug`): passes, or fails with an error. */
  type Checker<E> = string -> Outcome<E>

  /** One query parameter, its name and its already serialized value. */
  type QueryPair = (string, string)

  /** The HTTP method of a request. */
  datatype Method = GET | POST

  /** The kind of item a report is about; the model only carries it through unchanged. */
  datatype ReportItemType = Project | User | Version | Unknown

  /** The body `submit_report` posts. */
  datatype ReportSubmission = ReportSubmission(
    reportType: string, itemId: string, itemType: ReportItemType, body: string)

  /** The request an API call hands to the dispatcher. */
  datatype Request =
    | Get(path: seq<string>)
    | GetWithQuery(path: seq<string>, query: seq<QueryPair>)
    | Post(path: seq<string>, submission: ReportSubmission)
  {
    /** The HTTP method the dispatcher entry uses. */
    function Verb(): Method {
      if Post? then POST else GET
    }

    /** The query pairs sent; a plain `get` sends none. */
    function Query(): seq<QueryPair> {
      if GetWithQuery? then query else []
    }

    /** The JSON body sent; only `post` carries one. */
    function Body(): Option<ReportSubmission> {
      if Post? then Some(submission) else None
    }
  }

  /** The first segment of every route the calls use. */
  const COLLECTIONS: set<string> := {"user", "users", "report", "project", "version", "versions"}

  /** The third segment of every route that has one. */
  const SUBCOLLECTIONS: set<string> := {"projects", "notifications", "follows", "version"}

  /**
   * A route of the remote service's grammar, `/{collection}`, `/{collection}/{id}`
   * or `/{collection}/{id}/{subcollection}`, whose only caller-supplied segment, the
   * identifier, has passed the check. The two name sets list exactly the literals
   * the calls write, so those conjuncts hold by construction; what the predicate
   * adds is that the identifier segment has passed the check.
   */
  predicate CheckedRoute<E>(check: Checker<E>, path: seq<string>) {
    && 1 <= |path| <= 3
    && path[0] in COLLECTIONS
    && (|path| >= 2 ==> check(path[1]).Pass?)
    && (|path| == 3 ==> path[2] in SUBCOLLECTIONS)
  }

  /** The `check_id_slug(id)?` step: the check's error, or the request that follows it. */
  function Then<E>(outcome: Outcome<E>, request: Request): Result<Request, E> {
    match outcome
    case Fail(e) => Err(e)
    case Pass => Ok(request)
  }

  /**
   * The first identifier, in input order, that the check rejects: its index and the
   * error the check returned. None when every identifier passes.
   */
  function FirstFailure<E>(check: Checker<E>, ids: seq<string>): (r: Option<(nat, E)>)
    ensures r.None? <==> forall i :: 0 <= i < |ids| ==> check(ids[i]).Pass?
    ensures r.Some? ==>
      && r.value.0 < |ids|
      && check(ids[r.value.0]) == Fail(r.value.1)
      && forall j :: 0 <= j < r.value.0 ==> check(ids[j]).Pass?
    decreases |ids|
  {
    if ids == [] then None
    else
      match check(ids[0])
      case Fail(e) => Some((0, e))
      case Pass =>
        match FirstFailure(check, ids[1..])
        case None => None
        case Some((k, e)) => Some((k + 1, e))
  }

  /**
   * The result of a batch call depends on no identifier after the first rejected
   * one: those are never examined.
   */
  lemma {:induction false} FirstFailureIgnoresSuffix<E>(
    check: Checker<E>, ids: seq<string>, k: nat, e: E, more: seq<string>)
    requires FirstFailure(check, ids) == Some((k, e))
    ensures FirstFailure(check, ids[..k + 1] + more) == Some((k, e))
  {
    var xs := ids[..k + 1] + more;
    assert xs[0] == ids[0];
    if k > 0 {
      assert check(ids[0]).Pass?;
      match FirstFailure(check, ids[1..])
      case None =>
        assert false;
      case Some((k', e')) =>
        assert k' == k - 1 && e' == e;
        FirstFailureIgnoresSuffix(check, ids[1..], k - 1, e, more);
        assert xs[1..] == ids[1..][..k] + more;
    }
  }

  /** A named filter with its serialized value, or None when the caller left it out. */
  type Filter = (string, Option<string>)

  /**
   * The query built from a list of optional filters: one pair per present filter,
   * in the order of the list; absent filters are left out, never sent empty.
   */
  function Present(filters: seq<Filter>): seq<QueryPair> {
    if filters == [] then [] else Contribution(filters[0]) + Present(filters[1..])
  }

  /** The pair a single filter contributes: one when present, none when absent. */
  function Contribution(filter: Filter): seq<QueryPair> {
    if filter.1.Some? then [(filter.0, filter.1.value)] else []
  }

  /** The query is empty exactly when every filter is absent. */
  lemma {:induction false} PresentEmpty(filters: seq<Filter>)
    ensures Present(filters) == [] <==> forall i :: 0 <= i < |filters| ==> filters[i].1.None?
  {
    if filters != [] {
      PresentEmpty(filters[1..]);
      assert forall i :: 1 <= i < |filters| ==> filters[i] == filters[1..][i - 1];
    }
  }

  /** A pair is in the query exactly when it is a present filter of the list. */
  lemma {:induction false} PresentPairs(filters: seq<Filter>, name: string, value: string)
    ensures (name, value) in Present(filters) <==>
      exists i :: 0 <= i < |filters| && filters[i] == (name, Some(value))
  {
    if filters != [] {
      PresentPairs(filters[1..], name, value);
      if (name, value) in Present(filters[1..]) {
        var i :| 0 <= i < |filters[1..]| && filters[1..][i] == (name, Some(value));
        assert filters[i + 1] == (name, Some(value));
      }
      if exists i :: 0 <= i < |filters| && filters[i] == (name, Some(value)) {
        var i :| 0 <= i < |filters| && filters[i] == (name, Some(value));
        if i > 0 {
          assert filters[1..][i - 1] == (name, Some(value));
        }
      }
    }
  }

  /** The batch request: one GET to `path` whose only query pair is `ids`. */
  function IdsRequest(path: seq<string>, ids: seq<string>): Request
  {
    GetWithQuery(path, [("ids", Json.StringArray(ids))])
  }

  /**
   * The `ids` query value of a batch request decodes to exactly the identifiers
   * given, in input order.
   */
  lemma IdsRequestCarriesIds(path: seq<string>, ids: seq<string>)
    ensures IdsRequest(path, ids).Verb() == GET
    ensures |IdsRequest(path, ids).Query()| == 1
    ensures IdsRequest(path, ids).Query()[0].0 == "ids"
    ensures Json.ParseStringArray(IdsRequest(path, ids).Query()[0].1) == Some(ids)
    ensures IdsRequest(path, ids).Body() == None
  {
    Json.StringArrayRoundTrip(ids);
  }
}
