/**
 * The catalog stream object: its two cached bearer tokens and its append-only
 * table of rows, which its methods update in place. Each method is proved to
 * leave the state the matching function of modules Classifier and Traversal
 * describes.
 */
module Streams {
  import opened Wrappers
  import opened PyJson
  import opened Http
  import opened ErrorMessages
  import opened Tokens
  import opened Classifier
  import opened Rows
  import opened Records
  import opened Traversal

  /** The request a response carries; only its Authorization header is modelled. */
  class PreparedRequest {
    var authorization: Option<string>

    constructor (authorization: Option<string>)
      ensures this.authorization == authorization
    {
      this.authorization := authorization;
    }
  }

  class CatalogsStream {
    const config: Config
    var adminToken: string
    var userToken: string
    /** The accumulated table (`results_df`). */
    var results: seq<Row>

    /** Both tokens are bearer values and every row's feed tag matches its filled columns. */
    ghost predicate Valid()
      reads this
    {
      && IsBearer(adminToken) && IsBearer(userToken)
      && forall r :: r in results ==> Conforms(r)
    }

    function CachedTokens(): TokenPair
      reads this
    {
      TokenPair(adminToken, userToken)
    }

    constructor (config: Config, adminToken: string, userToken: string)
      requires IsBearer(adminToken) && IsBearer(userToken)
      ensures Valid() && this.config == config && results == []
      ensures this.adminToken == adminToken && this.userToken == userToken
    {
      this.config := config;
      this.adminToken := adminToken;
      this.userToken := userToken;
      this.results := [];
    }

    /** `__init__`: an empty table, then the admin token and the user token, in that order. */
    static method Open(config: Config, endpoint: TokenEndpoint) returns (r: Result<CatalogsStream, PyError>)
      ensures r.Ok? <==> TokenRequest(config, Admin, endpoint).Ok? && TokenRequest(config, User, endpoint).Ok?
      ensures r.Ok? ==> && fresh(r.value) && r.value.Valid() && r.value.config == config && r.value.results == []
                        && Ok(r.value.adminToken) == TokenRequest(config, Admin, endpoint)
                        && Ok(r.value.userToken) == TokenRequest(config, User, endpoint)
      ensures r.Err? ==> r.error == if TokenRequest(config, Admin, endpoint).Err?
                                    then TokenRequest(config, Admin, endpoint).error
                                    else TokenRequest(config, User, endpoint).error
    {
      var admin := TokenRequest(config, Admin, endpoint);
      if admin.Err? {
        return Err(admin.error);
      }
      var user := TokenRequest(config, User, endpoint);
      if user.Err? {
        return Err(user.error);
      }
      var stream := new CatalogsStream(config, admin.value, user.value);
      return Ok(stream);
    }

    /** `http_headers`: the request to the catalog listing carries the admin bearer token. */
    function HttpHeaders(): (headers: map<string, string>)
      reads this
      requires Valid()
      ensures headers.Keys == {"Authorization"}
      ensures IsBearer(headers["Authorization"]) && headers["Authorization"] == adminToken
    {
      map["Authorization" := adminToken]
    }

    /** `validate_response`: classify a response and refresh the token that expired. */
    method ValidateResponse(resp: HttpResponse, request: PreparedRequest, endpoint: TokenEndpoint)
      returns (verdict: Verdict)
      requires Valid()
      modifies this`adminToken, this`userToken, request
      ensures Valid() && results == old(results)
      ensures var v := Validate(resp, CatalogsPath, config, endpoint, old(CachedTokens()), old(request.authorization));
              verdict == v.verdict && CachedTokens() == v.tokens && request.authorization == v.header
    {
      if resp.body.None? {
        return Crashed(JsonDecodeError);
      }
      if IsRetriableStatus(resp.status) {
        var noResults := NoResultsReported(resp.body.value);
        if noResults.Err? {
          return Crashed(noResults.error);
        }
        if !noResults.value {
          return Retriable(ErrorMessage(resp, CatalogsPath));
        }
      }
      verdict := CheckClientError(resp, request, endpoint);
    }

    /** The 4xx test of `validate_response`, for a response with a JSON body. */
    method CheckClientError(resp: HttpResponse, request: PreparedRequest, endpoint: TokenEndpoint)
      returns (verdict: Verdict)
      requires Valid() && resp.body.Some?
      modifies this`adminToken, this`userToken, request
      ensures Valid() && results == old(results)
      ensures var v := ClientErrorCheck(resp, CatalogsPath, config, endpoint, old(CachedTokens()), old(request.authorization));
              verdict == v.verdict && CachedTokens() == v.tokens && request.authorization == v.header
    {
      if !IsClientStatus(resp.status) {
        return Pass;
      }
      var expired := TokenExpiredReported(resp.body.value);
      if expired.Err? {
        return Crashed(expired.error);
      }
      if !expired.value {
        return Fatal(ErrorMessage(resp, CatalogsPath));
      }
      if request.authorization.None? {
        return Crashed(KeyError);
      }
      var userType: Identity;
      if request.authorization.value == adminToken {
        userType := Admin;
      } else if request.authorization.value == userToken {
        userType := User;
      } else {
        return Crashed(UnboundLocalError);
      }
      var newToken := TokenRequest(config, userType, endpoint);
      if newToken.Err? {
        return Crashed(newToken.error);
      }
      if userType == Admin {
        adminToken := newToken.value;
      } else {
        userToken := newToken.value;
      }
      request.authorization := Some(newToken.value);
      return Retriable(ErrorMessage(resp, CatalogsPath));
    }

    /** `_get_response`: send with the admin token and validate; any exception becomes None. */
    method GetResponse(query: FeedQuery, server: FeedServer, endpoint: TokenEndpoint)
      returns (response: Option<HttpResponse>)
      requires Valid()
      modifies this`adminToken, this`userToken
      ensures Valid() && results == old(results)
      ensures var f := GetResponseSpec(query, Env(config, server, endpoint), old(CachedTokens()));
              response == f.response && CachedTokens() == f.tokens
    {
      var authorization := adminToken;
      var sent := server(query, authorization);
      if sent.None? {
        return None;
      }
      var request := new PreparedRequest(Some(authorization));
      var verdict := ValidateResponse(sent.value, request, endpoint);
      response := if verdict.Pass? then sent else None;
    }

    /** A feed method: fetch one feed of a catalog and append one row per item. */
    method FetchFeed(feed: Feed, catalogId: Json, server: FeedServer, endpoint: TokenEndpoint)
      returns (failure: Option<PyError>)
      requires Valid()
      modifies this
      ensures Valid()
      ensures var s := FetchFeedSpec(feed, catalogId, Env(config, server, endpoint), old(CachedTokens()));
              results == old(results) + s.rows && CachedTokens() == s.tokens && failure == s.failure
    {
      var response := GetResponse(FeedQuery(feed, catalogId, config.language), server, endpoint);
      if response.None? {
        return Some(AttributeError);
      }
      var items := BodyItems(response.value.body);
      if items.Err? {
        return Some(items.error);
      }
      failure := AppendRows(feed, items.value);
    }

    /** The loop of a feed method: one row per item, appended in item order. */
    method AppendRows(feed: Feed, items: seq<Json>) returns (failure: Option<PyError>)
      requires Valid()
      modifies this`results
      ensures Valid()
      ensures results == old(results) + DrainFeed(feed, items).rows && failure == DrainFeed(feed, items).failure
    {
      var i := 0;
      while i < |items|
        invariant 0 <= i <= |items|
        invariant Valid()
        invariant DrainFeed(feed, items[..i]).failure.None?
        invariant results == old(results) + DrainFeed(feed, items[..i]).rows
      {
        DrainFeedNext(feed, items, i);
        var row := RowFor(feed, items[i]);
        if row.Err? {
          DrainFeedStops(feed, items, i + 1);
          return Some(row.error);
        }
        AppendAssociative(old(results), DrainFeed(feed, items[..i]).rows, [row.value]);
        results := results + [row.value];
        i := i + 1;
      }
      assert items[..i] == items;
      failure := None;
    }

    /** `_get_catalogs`: for each catalog entry, its courses, curricula and programs. */
    method GetCatalogs(body: Option<Json>, server: FeedServer, endpoint: TokenEndpoint)
      returns (failure: Option<PyError>)
      requires Valid()
      modifies this
      ensures Valid()
      ensures var s := GetCatalogsSpec(body, Env(config, server, endpoint), old(CachedTokens()));
              results == old(results) + s.rows && CachedTokens() == s.tokens && failure == s.failure
    {
      ghost var env := Env(config, server, endpoint);
      ghost var start := CachedTokens();
      var entries := BodyItems(body);
      if entries.Err? {
        return Some(entries.error);
      }
      var i := 0;
      while i < |entries.value|
        invariant 0 <= i <= |entries.value|
        invariant Valid()
        invariant CatalogsSpec(entries.value[..i], env, start).failure.None?
        invariant results == old(results) + CatalogsSpec(entries.value[..i], env, start).rows
        invariant CachedTokens() == CatalogsSpec(entries.value[..i], env, start).tokens
      {
        CatalogsSpecNext(entries.value, i, env, start);
        ghost var before := CatalogsSpec(entries.value[..i], env, start);
        ghost var done := results;
        failure := FetchCatalog(entries.value[i], server, endpoint);
        ghost var last := CatalogSpec(entries.value[i], env, before.tokens);
        AppendAssociative(old(results), before.rows, last.rows);
        assert CatalogsSpec(entries.value[..i + 1], env, start) == Step(before.rows + last.rows, last.failure, last.tokens);
        if failure.Some? {
          CatalogsSpecStops(entries.value, i + 1, env, start);
          return;
        }
        i := i + 1;
      }
      assert entries.value[..i] == entries.value;
      failure := None;
    }

    /** One pass of `_get_catalogs`' loop: read the entry's `catalogID`, then fetch its feeds. */
    method FetchCatalog(entry: Json, server: FeedServer, endpoint: TokenEndpoint)
      returns (failure: Option<PyError>)
      requires Valid()
      modifies this
      ensures Valid()
      ensures var s := CatalogSpec(entry, Env(config, server, endpoint), old(CachedTokens()));
              results == old(results) + s.rows && CachedTokens() == s.tokens && failure == s.failure
    {
      var catalogId := PyGetItem(entry, "catalogID");
      if catalogId.Err? {
        return Some(catalogId.error);
      }
      failure := FetchCatalogFeeds(catalogId.value, server, endpoint);
    }

    /** Courses, then curricula, then programs of one catalog; the first failure ends the pass. */
    method FetchCatalogFeeds(catalogId: Json, server: FeedServer, endpoint: TokenEndpoint)
      returns (failure: Option<PyError>)
      requires Valid()
      modifies this
      ensures Valid()
      ensures var s := FeedsSpec(CatalogFeeds, catalogId, Env(config, server, endpoint), old(CachedTokens()));
              results == old(results) + s.rows && CachedTokens() == s.tokens && failure == s.failure
    {
      ghost var env := Env(config, server, endpoint);
      ghost var start := results;
      CatalogFeedsInTurn(catalogId, env, CachedTokens());
      ghost var courses := FetchFeedSpec(Courses, catalogId, env, CachedTokens());
      failure := FetchFeed(Courses, catalogId, server, endpoint);
      if failure.Some? {
        return;
      }
      ghost var curricula := FetchFeedSpec(Curricula, catalogId, env, courses.tokens);
      failure := FetchFeed(Curricula, catalogId, server, endpoint);
      AppendAssociative(start, courses.rows, curricula.rows);
      if failure.Some? {
        return;
      }
      failure := FetchFeed(Programs, catalogId, server, endpoint);
      AppendAssociative(start, courses.rows, curricula.rows + FetchFeedSpec(Programs, catalogId, env, curricula.tokens).rows);
      AppendAssociative(courses.rows, curricula.rows, FetchFeedSpec(Programs, catalogId, env, curricula.tokens).rows);
      AppendAssociative(start + courses.rows, curricula.rows, FetchFeedSpec(Programs, catalogId, env, curricula.tokens).rows);
    }

    /**
     * `parse_response`: when the listing is truthy, walk the catalogs and then emit
     * one record per accumulated row, earlier rows first; an exception during the
     * walk emits nothing.
     */
    method ParseResponse(body: Option<Json>, server: FeedServer, endpoint: TokenEndpoint)
      returns (records: Result<seq<Json>, PyError>)
      requires Valid()
      modifies this
      ensures Valid()
      ensures body.None? ==>
                records == Err(JsonDecodeError) && results == old(results) && CachedTokens() == old(CachedTokens())
      ensures body.Some? && !Truthy(body.value) ==>
                records == Ok([]) && results == old(results) && CachedTokens() == old(CachedTokens())
      ensures body.Some? && Truthy(body.value) ==>
                var s := GetCatalogsSpec(body, Env(config, server, endpoint), old(CachedTokens()));
                && results == old(results) + s.rows && CachedTokens() == s.tokens
                && records == (if s.failure.Some? then Err(s.failure.value) else Ok(Emit(results)))
      ensures body.Some? && Truthy(body.value) && records.Ok? ==> Emit(old(results)) <= records.value
    {
      if body.None? {
        return Err(JsonDecodeError);
      }
      if !Truthy(body.value) {
        return Ok([]);
      }
      var failure := GetCatalogs(body, server, endpoint);
      if failure.Some? {
        return Err(failure.value);
      }
      EmitAppend(old(results), results[|old(results)|..]);
      assert old(results) + results[|old(results)|..] == results;
      records := Ok(Emit(results));
    }
  }
}
