/**
 * What the catalog stream's fetches do, as functions of the cached tokens: one
 * feed request (`_get_response` and a feed method), one catalog (`courses`,
 * `curricula`, `programs` in turn) and the walk over all catalogs. The class in
 * module Streams carries out the same steps and is proved equal to these.
 */
module Traversal {
  import opened Wrappers
  import opened Text
  import opened PyJson
  import opened Http
  import opened ErrorMessages
  import opened Tokens
  import opened Classifier
  import opened Rows

  /** "/learning/odatav4/public/admin/catalog-service/v1", written by segment. */
  const ServicePath: string := "/learning" + "/odatav4" + "/public" + "/admin" + "/catalog-service" + "/v1"
  /** The catalog stream's own path. */
  const CatalogsPath: string := ServicePath + "/Catalogs"

  function FeedSegment(feed: Feed): string {
    match feed
    case Courses => "CoursesFeed"
    case Curricula => "CurriculaFeed"
    case Programs => "ProgramsFeed"
  }

  /** A feed request: which feed, of which catalog, in which language. */
  datatype FeedQuery = FeedQuery(feed: Feed, catalogId: Json, language: string)

  /** The path of a catalog's feed. */
  function FeedPath(catalogId: string, feed: Feed): string {
    ServicePath + "/CatalogsFeed('" + catalogId + "')/" + FeedSegment(feed)
  }

  /** The query string selecting the configured locale. */
  function LocaleFilter(language: string): string {
    "?$filter=criteria/localeID eq '" + language + "'"
  }

  /** The URL a feed request goes to, for a catalog id rendered as text. */
  function FeedUrl(baseUrl: string, catalogId: string, feed: Feed, language: string): string {
    baseUrl + FeedPath(catalogId, feed) + LocaleFilter(language)
  }

  lemma FeedPathShape(catalogId: string, feed: Feed)
    requires '/' !in catalogId && '?' !in catalogId && '#' !in catalogId && ';' !in catalogId
    ensures var p := FeedPath(catalogId, feed);
            |p| > 0 && p[0] == '/' && '?' !in p && '#' !in p && ';' !in p
  {
    ServicePathShape();
    var catalogPart := "/CatalogsFeed('" + catalogId + "')/";
    assert FeedPath(catalogId, feed) == ServicePath + (catalogPart + FeedSegment(feed));
    NotInCatalogPart(catalogId, feed, '?');
    NotInCatalogPart(catalogId, feed, '#');
    NotInCatalogPart(catalogId, feed, ';');
  }

  lemma ServicePathShape()
    ensures |ServicePath| > 0 && ServicePath[0] == '/'
    ensures '?' !in ServicePath && '#' !in ServicePath && ';' !in ServicePath
  {
  }

  lemma NotInCatalogPart(catalogId: string, feed: Feed, c: char)
    requires c == '?' || c == '#' || c == ';'
    requires c !in catalogId
    ensures c !in "/CatalogsFeed('" + catalogId + "')/" + FeedSegment(feed)
  {
    assert c !in "/CatalogsFeed('";
    assert c !in "')/";
    assert c !in FeedSegment(feed);
  }

  /** An error on a feed request reports the feed's path without its locale filter. */
  lemma FeedUrlReportedPath(host: string, catalogId: string, feed: Feed, language: string)
    requires forall j :: 0 <= j < |host| ==> !IsNetlocDelimiter(host[j])
    requires '/' !in catalogId && '?' !in catalogId && '#' !in catalogId && ';' !in catalogId
    ensures UrlPath(FeedUrl("https://" + host, catalogId, feed, language)) == FeedPath(catalogId, feed)
    ensures forall streamPath :: ReportedPath(FeedUrl("https://" + host, catalogId, feed, language), streamPath)
                                 == FeedPath(catalogId, feed)
  {
    FeedPathShape(catalogId, feed);
    assert LocaleFilter(language)[0] == '?';
    PathOfHttpsUrl(host, FeedPath(catalogId, feed), LocaleFilter(language));
  }

  /**
   * An error raised for a response whose URL is the feed request's URL names the
   * feed's path, whatever the stream's own path.
   */
  lemma FeedErrorNamesFeedPath(resp: HttpResponse, host: string, catalogId: string, feed: Feed, language: string,
                               streamPath: string)
    requires resp.url == FeedUrl("https://" + host, catalogId, feed, language)
    requires forall j :: 0 <= j < |host| ==> !IsNetlocDelimiter(host[j])
    requires '/' !in catalogId && '?' !in catalogId && '#' !in catalogId && ';' !in catalogId
    ensures ErrorMessage(resp, streamPath) == MessageText(resp.status, resp.reason, FeedPath(catalogId, feed))
  {
    FeedUrlReportedPath(host, catalogId, feed, language);
  }

  /**
   * The catalog service, seen from the tap: its response to a feed request sent
   * with an Authorization header, or None when `requests.request` raised.
   */
  type FeedServer = (FeedQuery, string) -> Option<HttpResponse>

  /** The services the stream talks to, and its configuration. */
  datatype Env = Env(config: Config, server: FeedServer, endpoint: TokenEndpoint)

  /** The response `_get_response` returns (None when anything raised) and the tokens afterwards. */
  datatype Fetched = Fetched(response: Option<HttpResponse>, tokens: TokenPair)

  /** `_get_response`: send with the admin token, validate, swallow every exception. */
  function GetResponseSpec(query: FeedQuery, env: Env, tokens: TokenPair): (f: Fetched)
    ensures f.tokens.user == tokens.user
    ensures f.response.Some? ==> f.response == env.server(query, tokens.admin)
  {
    match env.server(query, tokens.admin)
    case None => Fetched(None, tokens)
    case Some(resp) =>
      var v := Validate(resp, CatalogsPath, env.config, env.endpoint, tokens, Some(tokens.admin));
      Fetched(if v.verdict.Pass? then Some(resp) else None, v.tokens)
  }

  /** A returned response passed validation, so the tokens did not change. */
  lemma ReturnedResponseKeepsTokens(query: FeedQuery, env: Env, tokens: TokenPair)
    ensures var f := GetResponseSpec(query, env, tokens);
            f.response.Some? ==> f.tokens == tokens && f.response.value.body.Some?
  {
  }

  /** `response.json()["value"]`, iterated. */
  function BodyItems(body: Option<Json>): Result<seq<Json>, PyError> {
    if body.None? then Err(JsonDecodeError)
    else
      var value :- PyGetItem(body.value, "value");
      LoopItems(value)
  }

  /** Rows appended, the error that stopped the work if any, and the tokens afterwards. */
  datatype Step = Step(rows: seq<Row>, failure: Option<PyError>, tokens: TokenPair)

  /** One feed method: fetch the feed of a catalog and append a row per item. */
  function FetchFeedSpec(feed: Feed, catalogId: Json, env: Env, tokens: TokenPair): (s: Step)
    ensures s.tokens.user == tokens.user
    ensures forall i :: 0 <= i < |s.rows| ==> s.rows[i].feed == feed && Conforms(s.rows[i])
  {
    var f := GetResponseSpec(FeedQuery(feed, catalogId, env.config.language), env, tokens);
    if f.response.None? then Step([], Some(AttributeError), f.tokens)
    else
      match BodyItems(f.response.value.body)
      case Err(e) => Step([], Some(e), f.tokens)
      case Ok(items) =>
        var d := DrainFeed(feed, items);
        Step(d.rows, d.failure, f.tokens)
  }

  /** One pass of `_get_catalogs`' loop: read the entry's `catalogID`, then fetch its feeds. */
  function CatalogSpec(entry: Json, env: Env, tokens: TokenPair): (s: Step)
    ensures s.tokens.user == tokens.user
    ensures !entry.Obj? ==> s == Step([], Some(TypeError), tokens)
  {
    match PyGetItem(entry, "catalogID")
    case Err(e) => Step([], Some(e), tokens)
    case Ok(id) => FeedsSpec(CatalogFeeds, id, env, tokens)
  }

  /** The feeds fetched for every catalog, in the order they are fetched. */
  const CatalogFeeds: seq<Feed> := [Courses, Curricula, Programs]

  /** The given feeds of one catalog, fetched in turn and stopped by the first failure. */
  function FeedsSpec(feeds: seq<Feed>, id: Json, env: Env, tokens: TokenPair): (s: Step)
    ensures s.tokens.user == tokens.user
    decreases |feeds|
  {
    if feeds == [] then Step([], None, tokens)
    else
      var first := FetchFeedSpec(feeds[0], id, env, tokens);
      if first.failure.Some? then first
      else
        var rest := FeedsSpec(feeds[1..], id, env, first.tokens);
        Step(first.rows + rest.rows, rest.failure, rest.tokens)
  }

  /** `_get_catalogs`' loop over the catalog entries, stopped by the first failure. */
  function CatalogsSpec(entries: seq<Json>, env: Env, tokens: TokenPair): (s: Step)
    ensures s.tokens.user == tokens.user
  {
    if entries == [] then Step([], None, tokens)
    else
      var before := CatalogsSpec(entries[..|entries| - 1], env, tokens);
      if before.failure.Some? then before
      else
        var last := CatalogSpec(entries[|entries| - 1], env, before.tokens);
        Step(before.rows + last.rows, last.failure, last.tokens)
  }

  /** `_get_catalogs`: the catalog entries are the listing's `value`. */
  function GetCatalogsSpec(body: Option<Json>, env: Env, tokens: TokenPair): (s: Step)
    ensures s.tokens.user == tokens.user
    ensures body.None? ==> s == Step([], Some(JsonDecodeError), tokens)
  {
    match BodyItems(body)
    case Err(e) => Step([], Some(e), tokens)
    case Ok(entries) => CatalogsSpec(entries, env, tokens)
  }

  /** One more catalog entry: the walk either was already stopped or takes that catalog's step. */
  lemma CatalogsSpecNext(entries: seq<Json>, i: nat, env: Env, tokens: TokenPair)
    requires i < |entries|
    ensures var before := CatalogsSpec(entries[..i], env, tokens);
            var last := CatalogSpec(entries[i], env, before.tokens);
            CatalogsSpec(entries[..i + 1], env, tokens)
            == if before.failure.Some? then before else Step(before.rows + last.rows, last.failure, last.tokens)
  {
    assert entries[..i + 1][..i] == entries[..i];
  }

  /** Once a catalog has failed, later catalogs are never fetched. */
  lemma {:induction false} CatalogsSpecStops(entries: seq<Json>, n: nat, env: Env, tokens: TokenPair)
    requires n <= |entries|
    requires CatalogsSpec(entries[..n], env, tokens).failure.Some?
    ensures CatalogsSpec(entries, env, tokens) == CatalogsSpec(entries[..n], env, tokens)
    decreases |entries| - n
  {
    if n < |entries| {
      assert entries[..n + 1][..n] == entries[..n];
      CatalogsSpecStops(entries, n + 1, env, tokens);
    } else {
      assert entries[..n] == entries;
    }
  }

  /** A fetch that completes leaves both tokens as they were. */
  lemma FetchFeedKeepsTokensOnSuccess(feed: Feed, catalogId: Json, env: Env, tokens: TokenPair)
    ensures var s := FetchFeedSpec(feed, catalogId, env, tokens);
            s.failure.None? ==> s.tokens == tokens
  {
    ReturnedResponseKeepsTokens(FeedQuery(feed, catalogId, env.config.language), env, tokens);
  }

  /** A catalog's feeds: courses, then curricula, then programs, each only if the one before completed. */
  lemma CatalogFeedsInTurn(id: Json, env: Env, tokens: TokenPair)
    ensures var courses := FetchFeedSpec(Courses, id, env, tokens);
            var curricula := FetchFeedSpec(Curricula, id, env, courses.tokens);
            var programs := FetchFeedSpec(Programs, id, env, curricula.tokens);
            FeedsSpec(CatalogFeeds, id, env, tokens)
            == if courses.failure.Some? then courses
               else if curricula.failure.Some? then Step(courses.rows + curricula.rows, curricula.failure, curricula.tokens)
               else Step(courses.rows + (curricula.rows + programs.rows), programs.failure, programs.tokens)
  {
    var courses := FetchFeedSpec(Courses, id, env, tokens);
    var curricula := FetchFeedSpec(Curricula, id, env, courses.tokens);
    var programs := FetchFeedSpec(Programs, id, env, curricula.tokens);
    assert CatalogFeeds[1..] == [Curricula, Programs];
    assert [Curricula, Programs][1..] == [Programs];
    assert [Programs][1..] == [];
    if courses.failure.None? && curricula.failure.None? {
      assert FeedsSpec([Programs], id, env, curricula.tokens) == Step(programs.rows + [], programs.failure, programs.tokens);
      assert programs.rows + [] == programs.rows;
    }
  }

  /** Feeds fetched to completion leave both tokens as they were. */
  lemma {:induction false} FeedsKeepTokensOnSuccess(feeds: seq<Feed>, id: Json, env: Env, tokens: TokenPair)
    ensures var s := FeedsSpec(feeds, id, env, tokens);
            s.failure.None? ==> s.tokens == tokens
    decreases |feeds|
  {
    if feeds != [] {
      FetchFeedKeepsTokensOnSuccess(feeds[0], id, env, tokens);
      var first := FetchFeedSpec(feeds[0], id, env, tokens);
      FeedsKeepTokensOnSuccess(feeds[1..], id, env, first.tokens);
    }
  }

  /** A walk over catalogs that completes leaves both tokens as they were. */
  lemma {:induction false} TraversalKeepsTokensOnSuccess(entries: seq<Json>, env: Env, tokens: TokenPair)
    ensures var s := CatalogsSpec(entries, env, tokens);
            s.failure.None? ==> s.tokens == tokens
  {
    if entries != [] {
      var before := CatalogsSpec(entries[..|entries| - 1], env, tokens);
      TraversalKeepsTokensOnSuccess(entries[..|entries| - 1], env, tokens);
      if before.failure.None? {
        var entry := entries[|entries| - 1];
        if PyGetItem(entry, "catalogID").Ok? {
          FeedsKeepTokensOnSuccess(CatalogFeeds, PyGetItem(entry, "catalogID").value, env, tokens);
        }
      }
    }
  }

  /** Position of a feed in a catalog's fetch order. */
  function FeedRank(feed: Feed): nat {
    match feed
    case Courses => 0
    case Curricula => 1
    case Programs => 2
  }

  /** Course rows first, then curriculum rows, then program rows. */
  predicate InFeedOrder(rows: seq<Row>) {
    forall i, j :: 0 <= i < j < |rows| ==> FeedRank(rows[i].feed) <= FeedRank(rows[j].feed)
  }

  lemma AllOfFeedThenLater(a: seq<Row>, b: seq<Row>, feed: Feed)
    requires forall i :: 0 <= i < |a| ==> a[i].feed == feed
    requires forall i :: 0 <= i < |b| ==> FeedRank(feed) <= FeedRank(b[i].feed)
    requires InFeedOrder(b)
    ensures InFeedOrder(a + b)
  {
  }

  /** Feeds listed in strictly increasing fetch order. */
  predicate Ascending(feeds: seq<Feed>) {
    forall i, j :: 0 <= i < j < |feeds| ==> FeedRank(feeds[i]) < FeedRank(feeds[j])
  }

  /**
   * Feeds fetched in ascending order add their rows in that order, none of a
   * feed before the first one fetched, each null in the columns its feed does
   * not fill.
   */
  lemma {:induction false} FeedsRowsInOrder(feeds: seq<Feed>, id: Json, env: Env, tokens: TokenPair)
    requires Ascending(feeds)
    ensures var rows := FeedsSpec(feeds, id, env, tokens).rows;
            && InFeedOrder(rows)
            && (forall i :: 0 <= i < |rows| ==> rows[i].feed in feeds && Conforms(rows[i]))
            && (feeds != [] ==> forall i :: 0 <= i < |rows| ==> FeedRank(feeds[0]) <= FeedRank(rows[i].feed))
    decreases |feeds|
  {
    if feeds != [] {
      var first := FetchFeedSpec(feeds[0], id, env, tokens);
      if first.failure.None? {
        var rest := FeedsSpec(feeds[1..], id, env, first.tokens);
        FeedsRowsInOrder(feeds[1..], id, env, first.tokens);
        assert forall i :: 0 <= i < |rest.rows| ==> FeedRank(feeds[0]) <= FeedRank(rest.rows[i].feed) by {
          forall i | 0 <= i < |rest.rows|
            ensures FeedRank(feeds[0]) <= FeedRank(rest.rows[i].feed)
          {
            var k :| 0 <= k < |feeds[1..]| && feeds[1..][k] == rest.rows[i].feed;
            assert feeds[k + 1] == rest.rows[i].feed;
          }
        }
        AllOfFeedThenLater(first.rows, rest.rows, feeds[0]);
        assert forall f :: f in feeds[1..] ==> f in feeds;
      }
    }
  }

  /**
   * The rows one catalog adds are in feed order, every one of them tagged with
   * its feed and null in the columns its feed does not fill, whether or not the
   * catalog completed.
   */
  lemma CatalogRowsInFeedOrder(entry: Json, env: Env, tokens: TokenPair)
    ensures InFeedOrder(CatalogSpec(entry, env, tokens).rows)
    ensures forall r :: r in CatalogSpec(entry, env, tokens).rows ==> Conforms(r)
  {
    if PyGetItem(entry, "catalogID").Ok? {
      FeedsRowsInOrder(CatalogFeeds, PyGetItem(entry, "catalogID").value, env, tokens);
    }
  }

  /**
   * Rows are only appended, catalog after catalog: the rows of the first n
   * catalogs are a prefix of the rows of all of them.
   */
  lemma {:induction false} TraversalExtendsPrefix(entries: seq<Json>, n: nat, env: Env, tokens: TokenPair)
    requires n <= |entries|
    ensures CatalogsSpec(entries[..n], env, tokens).rows <= CatalogsSpec(entries, env, tokens).rows
    decreases |entries| - n
  {
    if n < |entries| {
      var k := |entries| - 1;
      assert entries[..k][..n] == entries[..n];
      TraversalExtendsPrefix(entries[..k], n, env, tokens);
      CatalogsSpecNext(entries, k, env, tokens);
      assert entries[..k + 1] == entries;
    } else {
      assert entries[..n] == entries;
    }
  }

  /**
   * An expired admin token on a feed request is refreshed but the request is not
   * retried: the swallowed retriable error leaves no response, and the feed method
   * then fails on it. No row is added; the admin token is the refreshed one when the
   * token request succeeded and the old one otherwise; the user token is untouched.
   */
  lemma ExpiredTokenOnFeedAborts(feed: Feed, catalogId: Json, env: Env, tokens: TokenPair, resp: HttpResponse)
    requires env.server(FeedQuery(feed, catalogId, env.config.language), tokens.admin) == Some(resp)
    requires ReachesClientCheck(resp)
    requires TokenExpiredReported(resp.body.value) == Ok(true)
    ensures var t := TokenRequest(env.config, Admin, env.endpoint);
            FetchFeedSpec(feed, catalogId, env, tokens)
            == Step([], Some(AttributeError), if t.Ok? then tokens.With(Admin, t.value) else tokens)
  {
  }

  /**
   * A 5xx reporting "no results" passes validation; the feed then yields no rows
   * when the body carries an empty `value` list, and fails with KeyError when it
   * carries none.
   */
  lemma NoResultsOnFeed(feed: Feed, catalogId: Json, env: Env, tokens: TokenPair, resp: HttpResponse)
    requires env.server(FeedQuery(feed, catalogId, env.config.language), tokens.admin) == Some(resp)
    requires InternalServerError <= resp.status <= MaxStatus
    requires resp.body.Some? && resp.body.value.Obj?
    requires NoResultsReported(resp.body.value) == Ok(true)
    ensures "value" !in resp.body.value.fields ==>
              FetchFeedSpec(feed, catalogId, env, tokens) == Step([], Some(KeyError), tokens)
    ensures "value" in resp.body.value.fields && resp.body.value.fields["value"] == Arr([]) ==>
              FetchFeedSpec(feed, catalogId, env, tokens) == Step([], None, tokens)
  {
  }
}
