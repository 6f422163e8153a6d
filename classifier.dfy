/**
 * `validate_response`: the decision a response leads to, and what it does to the
 * two cached tokens and to the request's Authorization header. The function
 * `Validate` follows the source's ordered branches; the class method in module
 * Streams performs the same steps on mutable state and is proved equal to it.
 */
module Classifier {
  import opened Wrappers
  import opened Text
  import opened PyJson
  import opened Http
  import opened ErrorMessages
  import opened Tokens

  /** Error-message text the API uses when a filter matched nothing. */
  const NoResultsSentinel: string := "No search results for provided search criteria"
  /** `error_description` of an expired token. */
  const TokenExpiredSentinel: string := "The token has expired."

  /** The cached bearer values of both identities. */
  datatype TokenPair = TokenPair(admin: string, user: string) {
    function Get(id: Identity): string {
      match id
      case Admin => admin
      case User => user
    }

    function With(id: Identity, token: string): (r: TokenPair)
      ensures r.Get(id) == token && r.Get(Other(id)) == Get(Other(id))
    {
      match id
      case Admin => TokenPair(token, user)
      case User => TokenPair(admin, token)
    }
  }

  function Other(id: Identity): Identity {
    match id
    case Admin => User
    case User => Admin
  }

  /** What `validate_response` ends in: returning, raising one of the API errors, or crashing. */
  datatype Verdict =
    | Pass
    | Retriable(message: string)
    | Fatal(message: string)
    | Crashed(error: PyError)

  /** The verdict with the cached tokens and the request's Authorization header afterwards. */
  datatype Validation = Validation(verdict: Verdict, tokens: TokenPair, header: Option<string>)

  /** `"message" in data["error"] and <no-results sentinel> in data["error"]["message"]`. */
  function NoResultsReported(data: Json): (r: Result<bool, PyError>)
    ensures r.Err? ==> r.error == KeyError || r.error == TypeError
    ensures !data.Obj? ==> r == Err(TypeError)
    ensures data.Obj? && "error" !in data.fields ==> r == Err(KeyError)
    ensures r == Ok(true) ==> data.Obj? && "error" in data.fields && data.fields["error"].Obj?
                              && "message" in data.fields["error"].fields
    ensures data.Obj? && "error" in data.fields && data.fields["error"].Obj?
            && "message" in data.fields["error"].fields
            ==> r == PyIn(NoResultsSentinel, data.fields["error"].fields["message"])
  {
    var error :- PyGetItem(data, "error");
    var hasMessage :- PyIn("message", error);
    if !hasMessage then Ok(false)
    else
      var message :- PyGetItem(error, "message");
      PyIn(NoResultsSentinel, message)
  }

  /** `"error_description" in data and data["error_description"] == <expiry sentinel>`. */
  function TokenExpiredReported(data: Json): (r: Result<bool, PyError>)
    ensures r == Ok(true) <==> data.Obj? && "error_description" in data.fields
                               && data.fields["error_description"] == Str(TokenExpiredSentinel)
    ensures data.Obj? ==> r.Ok?
    ensures r.Err? ==> r.error == TypeError
  {
    var hasDescription :- PyIn("error_description", data);
    if !hasDescription then Ok(false)
    else
      var description :- PyGetItem(data, "error_description");
      Ok(description == Str(TokenExpiredSentinel))
  }

  /** The identity whose cached token sent the request: admin is compared first. */
  function IdentityOf(header: string, tokens: TokenPair): (r: Option<Identity>)
    ensures r == Some(Admin) <==> header == tokens.admin
    ensures r == Some(User) <==> header != tokens.admin && header == tokens.user
    ensures r.None? <==> header != tokens.admin && header != tokens.user
  {
    if header == tokens.admin then Some(Admin)
    else if header == tokens.user then Some(User)
    else None
  }

  /**
   * `validate_response` for `resp`, with `tokens` cached and `header` the request's
   * Authorization header (None when it has none).
   */
  function Validate(resp: HttpResponse, streamPath: string, config: Config, endpoint: TokenEndpoint,
                    tokens: TokenPair, header: Option<string>): (r: Validation)
    ensures r.verdict.Pass? <==> resp.body.Some? && !IsClientStatus(resp.status)
                                 && (IsRetriableStatus(resp.status) ==> NoResultsReported(resp.body.value) == Ok(true))
    ensures r.tokens != tokens || r.header != header ==> r.verdict.Retriable? && IsClientStatus(resp.status)
    ensures header == Some(tokens.admin) ==> r.tokens.user == tokens.user
    ensures IsBearer(tokens.admin) && IsBearer(tokens.user) ==> IsBearer(r.tokens.admin) && IsBearer(r.tokens.user)
  {
    if resp.body.None? then Validation(Crashed(JsonDecodeError), tokens, header)
    else if IsRetriableStatus(resp.status) then
      match NoResultsReported(resp.body.value)
      case Err(e) => Validation(Crashed(e), tokens, header)
      case Ok(noResults) =>
        if noResults then ClientErrorCheck(resp, streamPath, config, endpoint, tokens, header)
        else Validation(Retriable(ErrorMessage(resp, streamPath)), tokens, header)
    else ClientErrorCheck(resp, streamPath, config, endpoint, tokens, header)
  }

  /** The second test of `validate_response`, reached by every response the first one let through. */
  function ClientErrorCheck(resp: HttpResponse, streamPath: string, config: Config, endpoint: TokenEndpoint,
                            tokens: TokenPair, header: Option<string>): (r: Validation)
    requires resp.body.Some?
    ensures r.verdict.Pass? <==> !IsClientStatus(resp.status)
    ensures r.tokens != tokens || r.header != header ==> r.verdict.Retriable? && IsClientStatus(resp.status)
    ensures header == Some(tokens.admin) ==> r.tokens.user == tokens.user
    ensures IsBearer(tokens.admin) && IsBearer(tokens.user) ==> IsBearer(r.tokens.admin) && IsBearer(r.tokens.user)
  {
    if !IsClientStatus(resp.status) then Validation(Pass, tokens, header)
    else
      match TokenExpiredReported(resp.body.value)
      case Err(e) => Validation(Crashed(e), tokens, header)
      case Ok(expired) =>
        if !expired then Validation(Fatal(ErrorMessage(resp, streamPath)), tokens, header)
        else if header.None? then Validation(Crashed(KeyError), tokens, header)
        else
          match IdentityOf(header.value, tokens)
          case None => Validation(Crashed(UnboundLocalError), tokens, header)
          case Some(id) =>
            match TokenRequest(config, id, endpoint)
            case Err(e) => Validation(Crashed(e), tokens, header)
            case Ok(token) => Validation(Retriable(ErrorMessage(resp, streamPath)), tokens.With(id, token), Some(token))
  }

  /** The response gets to the 4xx test: a JSON body, a 4xx status, and not already raised as retriable. */
  predicate ReachesClientCheck(resp: HttpResponse) {
    resp.body.Some? && IsClientStatus(resp.status)
    && (IsRetriableStatus(resp.status) ==> NoResultsReported(resp.body.value) == Ok(true))
  }

  /** A 429 or 5xx whose body does not report "no results" is retriable and changes nothing. */
  lemma RetriableWithoutNoResults(resp: HttpResponse, streamPath: string, config: Config, endpoint: TokenEndpoint,
                                  tokens: TokenPair, header: Option<string>)
    requires resp.body.Some? && IsRetriableStatus(resp.status)
    requires NoResultsReported(resp.body.value) == Ok(false)
    ensures Validate(resp, streamPath, config, endpoint, tokens, header)
         == Validation(Retriable(ErrorMessage(resp, streamPath)), tokens, header)
  {
  }

  /** A 500 to 511 whose body reports "no results" passes and changes nothing. */
  lemma ServerErrorWithNoResultsPasses(resp: HttpResponse, streamPath: string, config: Config, endpoint: TokenEndpoint,
                                       tokens: TokenPair, header: Option<string>)
    requires resp.body.Some? && InternalServerError <= resp.status <= MaxStatus
    requires NoResultsReported(resp.body.value) == Ok(true)
    ensures Validate(resp, streamPath, config, endpoint, tokens, header) == Validation(Pass, tokens, header)
  {
  }

  /** A 429 reporting "no results" is not absorbed: it is judged by the 4xx test. */
  lemma TooManyRequestsWithNoResultsFallsThrough(resp: HttpResponse, streamPath: string, config: Config,
                                                 endpoint: TokenEndpoint, tokens: TokenPair, header: Option<string>)
    requires resp.body.Some? && resp.status == TooManyRequests
    requires NoResultsReported(resp.body.value) == Ok(true)
    ensures ReachesClientCheck(resp)
    ensures Validate(resp, streamPath, config, endpoint, tokens, header)
         == ClientErrorCheck(resp, streamPath, config, endpoint, tokens, header)
  {
  }

  /** A 429 never passes: whatever its body, it raises or crashes. */
  lemma TooManyRequestsNeverPasses(resp: HttpResponse, streamPath: string, config: Config, endpoint: TokenEndpoint,
                                   tokens: TokenPair, header: Option<string>)
    requires resp.status == TooManyRequests
    ensures !Validate(resp, streamPath, config, endpoint, tokens, header).verdict.Pass?
  {
  }

  /** A 500 to 511 is never fatal and never touches the tokens or the header. */
  lemma ServerErrorNeverFatal(resp: HttpResponse, streamPath: string, config: Config, endpoint: TokenEndpoint,
                              tokens: TokenPair, header: Option<string>)
    requires InternalServerError <= resp.status <= MaxStatus
    ensures var v := Validate(resp, streamPath, config, endpoint, tokens, header);
            !v.verdict.Fatal? && v.tokens == tokens && v.header == header
  {
  }

  /** A 4xx without the expiry sentinel (including a 429 reporting "no results") is fatal and changes nothing. */
  lemma ClientErrorWithoutExpiryIsFatal(resp: HttpResponse, streamPath: string, config: Config, endpoint: TokenEndpoint,
                                        tokens: TokenPair, header: Option<string>)
    requires ReachesClientCheck(resp)
    requires TokenExpiredReported(resp.body.value) == Ok(false)
    ensures Validate(resp, streamPath, config, endpoint, tokens, header)
         == Validation(Fatal(ErrorMessage(resp, streamPath)), tokens, header)
  {
  }

  /**
   * A 4xx reporting an expired token refreshes exactly the identity whose cached
   * token the request carried (admin compared first), leaves the other token
   * alone, puts the new token in the request header and raises a retriable error.
   */
  lemma ExpiryRefreshesSendingIdentity(resp: HttpResponse, streamPath: string, config: Config, endpoint: TokenEndpoint,
                                       tokens: TokenPair, sent: string)
    requires ReachesClientCheck(resp)
    requires TokenExpiredReported(resp.body.value) == Ok(true)
    requires sent == tokens.admin || sent == tokens.user
    requires TokenRequest(config, if sent == tokens.admin then Admin else User, endpoint).Ok?
    ensures var id := if sent == tokens.admin then Admin else User;
            var token := TokenRequest(config, id, endpoint).value;
            var v := Validate(resp, streamPath, config, endpoint, tokens, Some(sent));
            && v.verdict == Retriable(ErrorMessage(resp, streamPath))
            && v.tokens.Get(id) == token
            && v.tokens.Get(Other(id)) == tokens.Get(Other(id))
            && v.header == Some(token)
  {
  }

  /** An expiry report on a request carrying neither cached token crashes before any refresh. */
  lemma ExpiryFromUnknownSenderCrashes(resp: HttpResponse, streamPath: string, config: Config, endpoint: TokenEndpoint,
                                       tokens: TokenPair, sent: string)
    requires ReachesClientCheck(resp)
    requires TokenExpiredReported(resp.body.value) == Ok(true)
    requires sent != tokens.admin && sent != tokens.user
    ensures Validate(resp, streamPath, config, endpoint, tokens, Some(sent))
         == Validation(Crashed(UnboundLocalError), tokens, Some(sent))
  {
  }

  /** Statuses outside 400 to 511 pass and change nothing, once the body is JSON. */
  lemma OtherStatusesPass(resp: HttpResponse, streamPath: string, config: Config, endpoint: TokenEndpoint,
                          tokens: TokenPair, header: Option<string>)
    requires resp.status < BadRequest || resp.status > MaxStatus
    ensures Validate(resp, streamPath, config, endpoint, tokens, header)
         == if resp.body.Some? then Validation(Pass, tokens, header)
            else Validation(Crashed(JsonDecodeError), tokens, header)
  {
  }

  /**
   * Only an expiry refresh changes state: any change to a token or to the header
   * comes with a retriable verdict for a 4xx reporting an expired token, and the
   * header then holds the token of the identity that changed.
   */
  lemma {:induction false} OnlyExpiryChangesState(resp: HttpResponse, streamPath: string, config: Config,
                                                  endpoint: TokenEndpoint, tokens: TokenPair, header: Option<string>)
    ensures var v := Validate(resp, streamPath, config, endpoint, tokens, header);
            (v.tokens != tokens || v.header != header) ==>
              && ReachesClientCheck(resp)
              && TokenExpiredReported(resp.body.value) == Ok(true)
              && v.verdict.Retriable?
              && header.Some? && v.header.Some?
              && (v.tokens == tokens.With(Admin, v.header.value) || v.tokens == tokens.With(User, v.header.value))
  {
  }

  /** Validation only ever installs bearer tokens. */
  lemma ValidationKeepsBearerTokens(resp: HttpResponse, streamPath: string, config: Config, endpoint: TokenEndpoint,
                                    tokens: TokenPair, header: Option<string>)
    requires IsBearer(tokens.admin) && IsBearer(tokens.user)
    ensures var v := Validate(resp, streamPath, config, endpoint, tokens, header);
            IsBearer(v.tokens.admin) && IsBearer(v.tokens.user)
  {
  }
}
