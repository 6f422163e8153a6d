# tap-successfactors catalog stream, modelled in Dafny

This project models the core of the SAP SuccessFactors Learning tap
(`tap_successfactors/streams.py`):

- **Token exchange.** `token_request` exchanges the client credentials for a
  bearer token. The stream object caches an admin token and a user token.
- **Response classifier.** `validate_response` turns a status code and a JSON
  body into one of four outcomes:
  - pass;
  - a retriable error;
  - a fatal error;
  - a token refresh followed by a retriable error.
- **Error message.** `response_error_message` builds the text those errors carry.
- **Catalog traversal.** `_get_catalogs` visits each catalog in order and fetches
  its courses, curricula and programs feeds, in that order. Each feed item
  becomes a 15-column row appended to an accumulator (`results_df`).
  `parse_response` then emits every accumulated row as one record.

Module layout, from the bottom up:

| module | file | what it holds |
|---|---|---|
| `Wrappers` | `wrappers.dfy` | `Option` and `Result` |
| `Text` | `text.dfy` | character search, substring search, decimal rendering of naturals |
| `PyJson` | `pyjson.dfy` | parsed JSON values and the Python operations the tap applies to them, with the exceptions those raise |
| `Http` | `http.dfy` | responses, the status ranges, `urlparse(...).path` |
| `ErrorMessages` | `messages.dfy` | `response_error_message` and a parser that reads a message back |
| `Tokens` | `tokens.dfy` | configuration, the two identities, `token_request` |
| `Classifier` | `classifier.dfy` | `validate_response` as a function of the response, the cached tokens and the request header |
| `Rows` | `rows.dfy` | the row, the three row builders, the per-feed loop |
| `Records` | `records.dfy` | the record of a row and the emission of the table |
| `Traversal` | `traversal.dfy` | one feed fetch, one catalog, the walk over all catalogs, as functions of the cached tokens |
| `Streams` | `streams.dfy` | the stream object: tokens and table as mutable fields, its methods proved equal to the functions above |

HTTP is represented by oracles passed in as parameters:

- a `FeedServer`, which maps a feed request and an Authorization header to a response, or to None when the request raised;
- a `TokenEndpoint`, which maps a token POST to the JSON answer, or to None.

Python exceptions that the code does not handle are part of the model's results
(`PyError`). A crash is an outcome, never a precondition.

## Model

| member | source | states |
|---|---|---|
| Tokens.TokenRequest | tap_successfactors/streams.py:24-45 | The exchange succeeds exactly when the endpoint answers with an object whose `access_token` is a string; the token is then "Bearer " followed by that access token |
| Tokens.TokenCallShape | tap_successfactors/streams.py:24-42 | The exchange for an identity posts to "<base_url>/learning/oauth-api/rest/v1/token" with the configured client id and secret, grant type "client_credentials", and a scope of exactly the configured user and company, the identity's user type and the resource type "learning_public_api" |
| Tokens.TokenCallsDifferOnlyInUserType | tap_successfactors/streams.py:24-42 | The admin and user exchanges are different calls to the same token URL with the same client id and secret; their payloads agree outside the scope, and the scopes agree outside `userType` |
| Streams.CatalogsStream.Open | tap_successfactors/streams.py:72-93 | Construction succeeds exactly when both exchanges do, admin first; the new stream has an empty table and holds the two bearer tokens the exchanges returned; otherwise the first exchange's error |
| Streams.CatalogsStream.constructor | tap_successfactors/streams.py:72-93 | A new stream has an empty table and the given bearer tokens |
| Streams.CatalogsStream.HttpHeaders | tap_successfactors/streams.py:100-105 | The only header is Authorization, and it carries the cached admin bearer token |
| PyJson.PyIn | tap_successfactors/streams.py:133-135 | `in` on an object tests its keys, on a string tests for a substring, on a list tests whether the string is an element; any other scalar raises TypeError |
| PyJson.PyGetItem | tap_successfactors/streams.py:228-239 | Subscripting succeeds exactly on an object holding the key and yields its value; otherwise KeyError on objects, TypeError on anything else |
| PyJson.LoopItems | tap_successfactors/streams.py:216 | A `for` over a JSON list visits its elements in order |
| ErrorMessages.ErrorKind | tap_successfactors/streams.py:110-116 | "Client" exactly when 400 <= status < 500, "Server" otherwise |
| ErrorMessages.MessageText | tap_successfactors/streams.py:118-121 | The text opens with the status digits and closes with the path |
| ErrorMessages.MessageTextRoundTrip | tap_successfactors/streams.py:118-121 | For a reason without ':', the text "<status> <kind> Error: <reason> for path: <path>" reads back as its status, kind, reason and path |
| ErrorMessages.ErrorMessageShape | tap_successfactors/streams.py:107-121 | A response's error message opens with its status and closes with the path it reports |
| ErrorMessages.ErrorMessageRoundTrip | tap_successfactors/streams.py:107-121 | For a reason without ':', a response's error message reads back as its status, its Client/Server kind, its reason and its reported path |
| Http.UrlPath | tap_successfactors/streams.py:109 | The path taken from a URL never holds a query ('?') or fragment ('#') |
| Http.PathOfHttpsUrl | tap_successfactors/streams.py:109 | For "https://host" + path + query, the reported path is exactly the path, without the query |
| Http.EmptyPathFallsBack | tap_successfactors/streams.py:109 | A URL with no path reports the stream's own path |
| Http.ReportedPath | tap_successfactors/streams.py:109 | A non-empty URL path is the path reported; an empty one gives way to the stream's own path; the result is empty only when both are |
| Traversal.FeedUrlReportedPath | tap_successfactors/streams.py:213 | For a base URL "https://<host>" and a catalog id without '/', '?', '#' or ';', the feed URL parses to the feed's path without its locale filter, and that path is the one an error reports |
| Traversal.FeedErrorNamesFeedPath | tap_successfactors/streams.py:107-121 | Under the same conditions, an error raised for a response whose URL is the feed URL names the feed's path, whatever the stream's own path; the feed server's responses carry no such guarantee about their URL |
| Classifier.IdentityOf | tap_successfactors/streams.py:155-158 | The sender is admin exactly when the header equals the admin token, user exactly when it differs from the admin token and equals the user token, and unknown otherwise |
| Classifier.TokenPair.With | tap_successfactors/streams.py:168-171 | Replacing one identity's token leaves the other identity's token as it was |
| Classifier.NoResultsReported | tap_successfactors/streams.py:132-135 | The test raises only TypeError (for instance on a body that is not an object) or KeyError (for instance when there is no `error` key); it is true only when `error` is an object with a `message`, and then it is the `in` test of the no-results text on that message |
| Classifier.TokenExpiredReported | tap_successfactors/streams.py:150-153 | True exactly when the body is an object whose `error_description` is the expiry text; the only error it raises is TypeError, and never on an object |
| Classifier.Validate | tap_successfactors/streams.py:123-177 | A response passes exactly when its body is JSON, its status is outside 400-499, and a 429 or 500-511 reports "no results"; a token or the header changes only with a retriable verdict on a 400-499; a request carrying the admin token never changes the user token; bearer tokens stay bearer tokens |
| Classifier.ClientErrorCheck | tap_successfactors/streams.py:145-177 | The second test passes exactly the statuses outside 400-499; a token or the header changes only with a retriable verdict on a 400-499; a request carrying the admin token never changes the user token; bearer tokens stay bearer tokens |
| Classifier.RetriableWithoutNoResults | tap_successfactors/streams.py:126-143 | A 429 or 500-511 whose body does not report "no results" is retriable, with the built message, and changes neither token nor the header |
| Classifier.ServerErrorWithNoResultsPasses | tap_successfactors/streams.py:126-149 | A 500-511 whose `error.message` contains the no-results text passes and changes nothing |
| Classifier.TooManyRequestsWithNoResultsFallsThrough | tap_successfactors/streams.py:126-149 | A 429 carrying the no-results text is not absorbed: it is judged by the 400-499 test |
| Classifier.TooManyRequestsNeverPasses | tap_successfactors/streams.py:126-177 | A 429 never passes, whatever its body |
| Classifier.ServerErrorNeverFatal | tap_successfactors/streams.py:126-149 | A 500-511 is never fatal and never changes a token or the header |
| Classifier.ClientErrorWithoutExpiryIsFatal | tap_successfactors/streams.py:145-177 | A 400-499 that reaches the second test without the expiry text is fatal, with the built message, and changes nothing |
| Classifier.ExpiryRefreshesSendingIdentity | tap_successfactors/streams.py:150-174 | An expiry report refreshes exactly the identity whose token the request carried (admin compared first), keeps the other token, puts the new token in the request header and is retriable |
| Classifier.ExpiryFromUnknownSenderCrashes | tap_successfactors/streams.py:155-160 | An expiry report on a request carrying neither cached token fails with UnboundLocalError before any refresh |
| Classifier.OtherStatusesPass | tap_successfactors/streams.py:123-149 | Statuses outside 400-511 pass and change nothing once the body is JSON; a non-JSON body fails to decode |
| Classifier.OnlyExpiryChangesState | tap_successfactors/streams.py:123-177 | Any change to a token or to the header comes only from a 400-499 expiry report with a retriable verdict, and then exactly one identity's token became the new header |
| Classifier.ValidationKeepsBearerTokens | tap_successfactors/streams.py:160-171 | Validation only ever installs "Bearer " tokens |
| Streams.CatalogsStream.ValidateResponse | tap_successfactors/streams.py:123-177 | The in-place method's verdict, new tokens and new request header are those of the classifier function, and the bearer invariant is kept |
| Streams.CatalogsStream.CheckClientError | tap_successfactors/streams.py:145-177 | The in-place 400-499 test's verdict, new tokens and new request header are those of the second test's function, and the bearer invariant is kept |
| Streams.CatalogsStream.GetResponse | tap_successfactors/streams.py:203-210 | Sends with the admin token and returns the response only when validation passed; None when the request raised or validation raised; tokens updated as validation left them |
| Traversal.ReturnedResponseKeepsTokens | tap_successfactors/streams.py:203-210 | A returned response has a JSON body, and fetching it changed no token |
| Traversal.GetResponseSpec | tap_successfactors/streams.py:203-210 | A feed request never changes the user token; a returned response is the server's answer to the admin token |
| Traversal.FetchFeedSpec | tap_successfactors/streams.py:212-247 | A feed fetch never changes the user token, and every row it adds is tagged with its feed and null in the columns that feed does not fill |
| Rows.SubjectAreaOfList | tap_successfactors/streams.py:217-223 | Subject area id and description come from the first entry of the list, each null independently when missing, both null for an empty list |
| Rows.SubjectArea | tap_successfactors/streams.py:217-223 | A course that is not an object raises TypeError, one without `SubjectAreasFeed` raises KeyError, and an empty list gives a null id and description |
| Rows.CourseRow | tap_successfactors/streams.py:216-244 | A course row exists only for an object holding every key the feed reads; it is tagged as a course and copies `componentID` and `active` |
| Rows.CourseRowOfCompleteItem | tap_successfactors/streams.py:216-244 | A complete course item gives a "courses" row copying its twelve fields, with the subject area taken from the first entry of its list |
| Rows.CourseRowMissingKey | tap_successfactors/streams.py:216-239 | A course item missing any key it needs makes the feed raise |
| Rows.SummaryRow | tap_successfactors/streams.py:253-272 | A non-course row succeeds exactly when the item is an object with the four keys read; it copies ID, Title, Description and thumbnailURI and leaves the other ten columns null |
| Rows.CurriculumRow | tap_successfactors/streams.py:252-273 | A curriculum row takes ID and Title from `curriculumID` and `curriculumTitle`; the course-only columns are null |
| Rows.ProgramRow | tap_successfactors/streams.py:281-302 | A program row takes ID and Title from `programID` and `programTitle`; the course-only columns are null |
| Rows.RowFor | tap_successfactors/streams.py:212-305 | Every row built is tagged with its feed and is null in the columns its feed does not fill |
| Rows.DrainFeed | tap_successfactors/streams.py:216-247 | The loop appends at most one row per item, exactly one when it completes, each tagged with the feed |
| Rows.DrainFeedRows | tap_successfactors/streams.py:216-247 | A completed loop turned the i-th item into the i-th row |
| Rows.DrainFeedStops | tap_successfactors/streams.py:216-247 | After an item fails, later items are never read |
| Streams.CatalogsStream.AppendRows | tap_successfactors/streams.py:216-247 | The in-place loop appends exactly the rows of the feed loop to the table and reports the loop's failure |
| Streams.CatalogsStream.FetchFeed | tap_successfactors/streams.py:212-247 | A feed method leaves the table, the tokens and the failure exactly as the feed fetch function describes |
| Traversal.FetchFeedKeepsTokensOnSuccess | tap_successfactors/streams.py:212-216 | A feed fetch that completes leaves both tokens as they were |
| Traversal.ExpiredTokenOnFeedAborts | tap_successfactors/streams.py:203-216 | An expiry report on a feed request that reaches the 400-499 test adds no row and ends the feed with AttributeError (no retry); the admin token is the refreshed one when the exchange succeeded and is unchanged otherwise; the user token is untouched |
| Traversal.NoResultsOnFeed | tap_successfactors/streams.py:212-216 | A 5xx "no results" answer on a feed yields no rows when it carries an empty `value` list and KeyError when it carries none |
| Traversal.CatalogFeedsInTurn | tap_successfactors/streams.py:311-313 | A catalog fetches courses, then curricula, then programs, each only if the previous feed completed |
| Traversal.CatalogSpec | tap_successfactors/streams.py:308-313 | One catalog never changes the user token; an entry that is not an object raises TypeError and adds nothing |
| Traversal.FeedsSpec | tap_successfactors/streams.py:311-313 | Fetching a catalog's feeds never changes the user token |
| Traversal.FeedsKeepTokensOnSuccess | tap_successfactors/streams.py:311-313 | Feeds fetched to completion leave both tokens as they were |
| Traversal.FeedsRowsInOrder | tap_successfactors/streams.py:311-313 | Feeds fetched in ascending order add their rows in that order, each row conforming to its feed |
| Traversal.CatalogRowsInFeedOrder | tap_successfactors/streams.py:307-313 | Within one catalog, all course rows come before all curriculum rows, which come before all program rows, whether or not the catalog completed |
| Traversal.CatalogsSpecStops | tap_successfactors/streams.py:307-313 | Once a catalog fails, later catalogs are never fetched |
| Traversal.TraversalKeepsTokensOnSuccess | tap_successfactors/streams.py:307-313 | A walk over catalogs that completes leaves both tokens as they were |
| Traversal.TraversalExtendsPrefix | tap_successfactors/streams.py:307-313 | The rows of the first n catalogs are a prefix of the rows of all of them: rows are only appended |
| Traversal.CatalogsSpec | tap_successfactors/streams.py:307-313 | The walk over the catalogs never changes the user token |
| Traversal.GetCatalogsSpec | tap_successfactors/streams.py:307-308 | The walk never changes the user token; a listing that is not JSON raises and adds nothing |
| Streams.CatalogsStream.FetchCatalog | tap_successfactors/streams.py:308-313 | One pass of the catalog loop leaves the table, the tokens and the failure as the catalog function describes |
| Streams.CatalogsStream.FetchCatalogFeeds | tap_successfactors/streams.py:311-313 | The three feed calls append exactly the catalog's rows, in feed order, stopping at the first failure |
| Streams.CatalogsStream.GetCatalogs | tap_successfactors/streams.py:307-313 | The catalog loop appends exactly the rows of the catalog walk and reports its failure |
| Streams.CatalogsStream.ParseResponse | tap_successfactors/streams.py:315-322 | A non-JSON body fails and a falsy body emits nothing, with no change in either case; otherwise the walk's rows are appended and, unless it failed, every accumulated row is emitted with the earlier rows' records first |
| Records.RecordColumns | tap_successfactors/streams.py:54-70 | A record has all fifteen columns, with the feed's name in `Feed` |
| Records.ToRecord | tap_successfactors/streams.py:54-70 | A record is an object carrying the feed's name under `Feed` and the row's id under `ID` |
| Records.RecordRoundTrip | tap_successfactors/streams.py:54-70 | A record keeps every column of its row, nulls included |
| Records.Emit | tap_successfactors/streams.py:320-322 | One record per accumulated row |
| Records.EmitIsLossless | tap_successfactors/streams.py:320-322 | The i-th record reads back as the i-th row |
| Records.EmitAppend | tap_successfactors/streams.py:320-322 | Emitting a longer table keeps the earlier records in front, unchanged |

### Behaviour of the code worth knowing

- **No retry.** A token refresh during a feed request is not followed by a retry.
  `_get_response` swallows the retriable error and returns None, so the feed
  method then fails on `None.json()`. `Traversal.ExpiredTokenOnFeedAborts`
  states this outcome.
- **429 with "no results".** The first test lets a 429 carrying the "no results"
  text through, as it does a 500-511. The second test then judges the 429 as a
  400-499 status, and it raises.
- **"No results" on a feed.** Such a body passes validation, but the feed method
  still reads `value`, so a body without it raises KeyError.
- **The table is never cleared.** A second `parse_response` on the same stream
  emits the first call's rows again.
- **Token values.** The cached and compared values are the full "Bearer ..."
  strings, not the bare access tokens.
- **Tokens are fetched eagerly.** The constructor fetches both tokens, admin
  first, before any request is made.
- **Errors on a feed request.** A feed request's fatal or retriable error never
  reaches the caller as such: `_get_response` logs it and returns None, and the
  feed method then fails with AttributeError. Either way, the traversal stops.

## Left out

- HTTP (`requests.request`) and the token POST are oracles passed in as parameters. Connection errors are the oracle's None.
- Logging calls (lines 20, 43, 137-139, 154, 210, 310) have no effect on the model. The one at line 159 matters only through its f-string, which reads `user_type`: that read raises the UnboundLocalError of a request carrying neither cached token (`Classifier.ExpiryFromUnknownSenderCrashes`).
- pandas: the table is a sequence of rows. Dtype coercion by `pd.concat` and by `to_dict`, such as `None` becoming `NaN` in numeric columns, is not modelled.
- `urlparse` follows CPython's scheme, netloc, fragment, query and `;params` splitting. The schemes whose paths lose their `;params` are those of CPython's `uses_params`, `rtsps` included. It leaves out the stripping of leading C0 control characters and spaces, the removal of tab, CR and LF anywhere in the URL, IPv6 bracket validation, and the ValueError that `_checknetloc` raises for a netloc whose NFKC normalisation introduces a separator.
- A catalog id goes to the feed server as JSON. The text `str(catalogId)` puts into the URL is modelled only for string ids (`Traversal.FeedUrl`).
- The SDK's retry after `RetriableAPIError`, the SDK pagination and the request for the catalog listing belong to the Singer SDK. They are not part of this model. `parse_response` receives the listing's body.
- `extract_jsonpath("$[*]", row)` is taken to yield the row's record itself.
- Status codes are natural numbers. `max(HTTPStatus)` is the constant 511.
- `hasattr` checks in `__init__`: a new stream has neither token yet, so both exchanges always run, admin first.
- Configuration keys are assumed present. A missing `language`, `target_user_id` or credential key (a KeyError in `__init__`) is not modelled.
- `target_user_id` is read but never used by the core, so it only appears in `Tokens.Config`.
- The commented-out stream classes (lines 325-454) and `tap_successfactors/tap.py` (settings schema, stream list, CLI) are not part of this model.
- ErrorMessages.MessageTextRoundTrip: proved only for reasons without ':', for the same reason as the next line.
- ErrorMessages.ErrorMessageRoundTrip: proved only for reasons without ':'. A reason containing the separator " for path: " would make the reading ambiguous, and "no ':'" is a simple sufficient condition.
- Rows.CourseRowMissingKey: states that the feed raises KeyError or TypeError, not which one. Which is raised depends on whether an earlier key, such as a non-list `SubjectAreasFeed`, already fails by type.
- PyJson.LoopItems: iterating a non-empty JSON object raises TypeError at once. Python visits the keys, and each loop's first statement subscripts the key with a string, which raises TypeError before anything is appended.
- Tokens.TokenRequest: a token POST that raises and a reply that is not JSON (`response.json()` raising at line 44) are both the endpoint's None, and both give RequestFailed. The model does not tell a connection error from a JSONDecodeError there.
