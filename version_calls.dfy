/**
 * The request plans of the version calls (`src/api_calls/version.rs`), including
 * the one call with optional filters, `list_versions_filtered`.
 */
module VersionCalls {
  import opened Wrappers
  import opened Requests
  import Json

  /** `list_versions`: GET `/project/{project_id}/version`. */
  function ListVersions<E>(check: Checker<E>, projectId: string): (r: Result<Request, E>)
    ensures r.Err? <==> check(projectId).Fail?
    ensures r.Err? ==> check(projectId) == Fail(r.error)
    ensures r.Ok? ==> r.value.Get? && r.value.Verb() == GET && r.value.path == ["project", projectId, "version"]
    ensures r.Ok? ==> r.value.Query() == [] && r.value.Body() == None
    ensures r.Ok? ==> CheckedRoute(check, r.value.path)
  {
    Then(check(projectId), Get(["project", projectId, "version"]))
  }

  /**
   * The three filters of `list_versions_filtered` in their fixed order, each with
   * its compact JSON text when present.
   */
  function VersionFilters(
    loaders: Option<seq<string>>, gameVersions: Option<seq<string>>, featured: Option<bool>)
    : seq<Filter>
  {
    [ ("loaders", MapOption(loaders, Json.StringArray)),
      ("game_versions", MapOption(gameVersions, Json.StringArray)),
      ("featured", MapOption(featured, Json.Bool)) ]
  }

  /** The query `list_versions_filtered` sends. */
  function FilterQuery(
    loaders: Option<seq<string>>, gameVersions: Option<seq<string>>, featured: Option<bool>)
    : seq<QueryPair>
  {
    Present(VersionFilters(loaders, gameVersions, featured))
  }

  /** The filter query is each filter's contribution, in the fixed order. */
  lemma FilterQueryInOrder(
    loaders: Option<seq<string>>, gameVersions: Option<seq<string>>, featured: Option<bool>)
    ensures FilterQuery(loaders, gameVersions, featured) ==
      Contribution(("loaders", MapOption(loaders, Json.StringArray)))
      + Contribution(("game_versions", MapOption(gameVersions, Json.StringArray)))
      + Contribution(("featured", MapOption(featured, Json.Bool)))
  {
    var fs := VersionFilters(loaders, gameVersions, featured);
    // the last two unfoldings of `Present`, which the solver does not always find
    assert Present(fs[1..]) == Contribution(fs[1]) + Present(fs[2..]);
    assert Present(fs[2..]) == Contribution(fs[2]);
  }

  /** The position of a filter name in the fixed order. */
  function Rank(name: string): nat {
    if name == "loaders" then 0 else if name == "game_versions" then 1 else 2
  }

  /**
   * `list_versions_filtered`: checks `project_id` before building any query, then
   * pushes one pair per present filter in the order `loaders`, `game_versions`,
   * `featured`, and GETs the same path as `list_versions` with that query.
   */
  method ListVersionsFiltered<E>(
    check: Checker<E>, projectId: string,
    loaders: Option<seq<string>>, gameVersions: Option<seq<string>>, featured: Option<bool>)
    returns (r: Result<Request, E>)
    ensures r.Err? <==> check(projectId).Fail?
    ensures r.Err? ==> check(projectId) == Fail(r.error)
    ensures r.Ok? ==> r == Ok(GetWithQuery(["project", projectId, "version"],
                                            FilterQuery(loaders, gameVersions, featured)))
    ensures r.Ok? ==> r.value.path == ListVersions(check, projectId).value.path
    ensures r.Ok? ==> CheckedRoute(check, r.value.path)
  {
    var outcome := check(projectId);
    if outcome.Fail? {
      return Err(outcome.error);
    }
    FilterQueryInOrder(loaders, gameVersions, featured);
    var query: seq<QueryPair> := [];
    if loaders.Some? {
      query := query + [("loaders", Json.StringArray(loaders.value))];
    }
    assert query == Contribution(("loaders", MapOption(loaders, Json.StringArray)));
    if gameVersions.Some? {
      query := query + [("game_versions", Json.StringArray(gameVersions.value))];
    }
    if featured.Some? {
      query := query + [("featured", Json.Bool(featured.value))];
    }
    assert query == FilterQuery(loaders, gameVersions, featured);
    // the pairs are collected again into a new vector through an identity map
    ghost var pushed := query;
    query := seq(|query|, i requires 0 <= i < |query| => (query[i].0, query[i].1));
    assert query == pushed;
    r := Ok(GetWithQuery(["project", projectId, "version"], query));
  }

  /** With every filter absent the query is empty; it is empty only then. */
  lemma FilterQueryEmpty(
    loaders: Option<seq<string>>, gameVersions: Option<seq<string>>, featured: Option<bool>)
    ensures FilterQuery(loaders, gameVersions, featured) == [] <==>
      loaders.None? && gameVersions.None? && featured.None?
  {
    var fs := VersionFilters(loaders, gameVersions, featured);
    PresentEmpty(fs);
    assert fs[0].1.None? <==> loaders.None?;
    assert fs[1].1.None? <==> gameVersions.None?;
    assert fs[2].1.None? <==> featured.None?;
  }

  /** One pair per present filter and none for an absent one. */
  lemma FilterQueryLength(
    loaders: Option<seq<string>>, gameVersions: Option<seq<string>>, featured: Option<bool>)
    ensures |FilterQuery(loaders, gameVersions, featured)| ==
      (if loaders.Some? then 1 else 0) + (if gameVersions.Some? then 1 else 0)
      + (if featured.Some? then 1 else 0)
  {
    FilterQueryInOrder(loaders, gameVersions, featured);
  }

  /**
   * Each present filter is sent under its own name with its compact JSON text, and
   * an absent filter's name does not occur at all.
   */
  lemma FilterQueryValues(
    loaders: Option<seq<string>>, gameVersions: Option<seq<string>>, featured: Option<bool>,
    value: string)
    ensures ("loaders", value) in FilterQuery(loaders, gameVersions, featured) <==>
      loaders.Some? && value == Json.StringArray(loaders.value)
    ensures ("game_versions", value) in FilterQuery(loaders, gameVersions, featured) <==>
      gameVersions.Some? && value == Json.StringArray(gameVersions.value)
    ensures ("featured", value) in FilterQuery(loaders, gameVersions, featured) <==>
      featured.Some? && value == Json.Bool(featured.value)
  {
    FilterQueryInOrder(loaders, gameVersions, featured);
  }

  /**
   * The pairs follow the fixed order `loaders`, `game_versions`, `featured`, so no
   * name is sent twice, and no other name is sent.
   */
  lemma FilterQueryOrder(
    loaders: Option<seq<string>>, gameVersions: Option<seq<string>>, featured: Option<bool>)
    ensures forall i :: 0 <= i < |FilterQuery(loaders, gameVersions, featured)| ==>
      FilterQuery(loaders, gameVersions, featured)[i].0 in {"loaders", "game_versions", "featured"}
    ensures forall i, j :: 0 <= i < j < |FilterQuery(loaders, gameVersions, featured)| ==>
      Rank(FilterQuery(loaders, gameVersions, featured)[i].0)
      < Rank(FilterQuery(loaders, gameVersions, featured)[j].0)
  {
    FilterQueryInOrder(loaders, gameVersions, featured);
  }

  /** Every value sent decodes back to the filter value given (lists in their order). */
  lemma FilterQueryDecodes(
    loaders: Option<seq<string>>, gameVersions: Option<seq<string>>, featured: Option<bool>,
    i: nat)
    requires i < |FilterQuery(loaders, gameVersions, featured)|
    ensures var (name, value) := FilterQuery(loaders, gameVersions, featured)[i];
      && (name == "loaders" ==> loaders.Some? && Json.ParseStringArray(value) == Some(loaders.value))
      && (name == "game_versions" ==>
            gameVersions.Some? && Json.ParseStringArray(value) == Some(gameVersions.value))
      && (name == "featured" ==> featured.Some? && Json.ParseBool(value) == Some(featured.value))
  {
    var q := FilterQuery(loaders, gameVersions, featured);
    FilterQueryValues(loaders, gameVersions, featured, q[i].1);
    if loaders.Some? { Json.StringArrayRoundTrip(loaders.value); }
    if gameVersions.Some? { Json.StringArrayRoundTrip(gameVersions.value); }
    if featured.Some? { Json.BoolRoundTrip(featured.value); }
  }

  /** Listing with `loaders = ["forge"]` and nothing else sends `loaders=["forge"]`. */
  lemma FilterQueryExample()
    ensures FilterQuery(Some(["forge"]), None, None) == [("loaders", "[\"forge\"]")]
  {
    FilterQueryInOrder(Some(["forge"]), None, None);
    Json.StringArraySingleExample();
  }

  /** `get_version`: GET `/version/{version_id}`. */
  function GetVersion<E>(check: Checker<E>, versionId: string): (r: Result<Request, E>)
    ensures r.Err? <==> check(versionId).Fail?
    ensures r.Err? ==> check(versionId) == Fail(r.error)
    ensures r.Ok? ==> r.value.Get? && r.value.Verb() == GET && r.value.path == ["version", versionId]
    ensures r.Ok? ==> r.value.Query() == [] && r.value.Body() == None
    ensures r.Ok? ==> CheckedRoute(check, r.value.path)
  {
    Then(check(versionId), Get(["version", versionId]))
  }

  /**
   * `get_multiple_versions`: checks every identifier in input order and returns the
   * first failure; only when all pass is one GET to `/versions` built, whose single
   * query pair `ids` is the JSON array of all identifiers. The ghost `examined`
   * lists the identifiers handed to the check, in order.
   */
  method GetMultipleVersions<E>(check: Checker<E>, versionIds: seq<string>)
    returns (r: Result<Request, E>, ghost examined: seq<string>)
    ensures FirstFailure(check, versionIds).Some? ==>
      && r == Err(FirstFailure(check, versionIds).value.1)
      && examined == versionIds[..FirstFailure(check, versionIds).value.0 + 1]
    ensures FirstFailure(check, versionIds).None? ==>
      && r == Ok(IdsRequest(["versions"], versionIds))
      && examined == versionIds
    ensures r.Ok? ==> CheckedRoute(check, r.value.path)
  {
    var i := 0;
    examined := [];
    while i < |versionIds|
      invariant 0 <= i <= |versionIds|
      invariant forall j :: 0 <= j < i ==> check(versionIds[j]).Pass?
      invariant examined == versionIds[..i]
    {
      examined := examined + [versionIds[i]];
      var outcome := check(versionIds[i]);
      if outcome.Fail? {
        r := Err(outcome.error);
        return;
      }
      i := i + 1;
    }
    r := Ok(IdsRequest(["versions"], versionIds));
  }
}
