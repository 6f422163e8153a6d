/**
 * The two bearer-token identities and the client-credentials exchange that
 * produces a token for each.
 */
module Tokens {
  import opened Wrappers
  import opened PyJson

  /** The tap's configuration, as validated by its settings schema. */
  datatype Config = Config(
    baseUrl: string,
    clientId: string,
    clientSecret: string,
    userId: string,
    companyId: string,
    language: string,
    targetUserId: string)

  datatype Identity = Admin | User

  /** The `userType` the exchange is asked for. */
  function UserType(id: Identity): string {
    match id
    case Admin => "admin"
    case User => "user"
  }

  /** One POST to the token endpoint: URL, basic-auth pair and JSON payload. */
  datatype TokenCall = TokenCall(url: string, clientId: string, clientSecret: string, payload: Json)

  /**
   * The token endpoint, seen from the tap: the body it answers to a call, or None
   * when the request raised or the body is not JSON.
   */
  type TokenEndpoint = TokenCall -> Option<Json>

  function TokenUrl(baseUrl: string): string {
    baseUrl + "/learning/oauth-api/rest/v1/token"
  }

  function TokenPayload(config: Config, id: Identity): Json {
    Obj(map[
      "grant_type" := Str("client_credentials"),
      "scope" := Obj(map[
        "userId" := Str(config.userId),
        "companyId" := Str(config.companyId),
        "userType" := Str(UserType(id)),
        "resourceType" := Str("learning_public_api")])])
  }

  function TokenCallFor(config: Config, id: Identity): TokenCall
  {
    TokenCall(TokenUrl(config.baseUrl), config.clientId, config.clientSecret, TokenPayload(config, id))
  }

  /** The exchange for `id`: the configured credentials, and a scope naming `id`'s user type. */
  lemma TokenCallShape(config: Config, id: Identity)
    ensures var c := TokenCallFor(config, id);
            && c.url == TokenUrl(config.baseUrl)
            && c.clientId == config.clientId && c.clientSecret == config.clientSecret
            && c.payload.Obj? && c.payload.fields.Keys == {"grant_type", "scope"}
            && c.payload.fields["grant_type"] == Str("client_credentials")
            && var scope := c.payload.fields["scope"];
               && scope.Obj? && scope.fields.Keys == {"userId", "companyId", "userType", "resourceType"}
               && scope.fields["userType"] == Str(UserType(id))
               && scope.fields["userId"] == Str(config.userId)
               && scope.fields["companyId"] == Str(config.companyId)
               && scope.fields["resourceType"] == Str("learning_public_api")
  {
  }

  /** The two identities' exchanges differ only in the requested user type. */
  lemma TokenCallsDifferOnlyInUserType(config: Config)
    ensures TokenCallFor(config, Admin) != TokenCallFor(config, User)
    ensures TokenCallFor(config, Admin).url == TokenCallFor(config, User).url
    ensures TokenCallFor(config, Admin).payload.fields - {"scope"} == TokenCallFor(config, User).payload.fields - {"scope"}
    ensures TokenCallFor(config, Admin).clientId == TokenCallFor(config, User).clientId
    ensures TokenCallFor(config, Admin).clientSecret == TokenCallFor(config, User).clientSecret
    ensures TokenCallFor(config, Admin).payload.fields["scope"].fields - {"userType"}
         == TokenCallFor(config, User).payload.fields["scope"].fields - {"userType"}
  {
    var a := TokenCallFor(config, Admin).payload;
    var u := TokenCallFor(config, User).payload;
    assert a.fields["scope"].fields["userType"] == Str("admin");
    assert u.fields["scope"].fields["userType"] == Str("user");
  }

  const BearerPrefix: string := "Bearer "

  /** A value of the form "Bearer <access token>". */
  predicate IsBearer(token: string) {
    |token| >= |BearerPrefix| && token[..|BearerPrefix|] == BearerPrefix
  }

  /** The access token inside a bearer value. */
  function AccessToken(token: string): string
    requires IsBearer(token)
  {
    token[|BearerPrefix|..]
  }

  /**
   * `token_request`: exchange the client credentials for `id`'s token and return
   * "Bearer " + the answer's `access_token`. Fails when the call raises, when the
   * answer lacks `access_token` (KeyError) and when that is not a string (TypeError).
   */
  function TokenRequest(config: Config, id: Identity, endpoint: TokenEndpoint): (r: Result<string, PyError>)
    ensures r.Ok? <==> endpoint(TokenCallFor(config, id)).Some?
                       && PyGetItem(endpoint(TokenCallFor(config, id)).value, "access_token").Ok?
                       && PyGetItem(endpoint(TokenCallFor(config, id)).value, "access_token").value.Str?
    ensures r.Ok? ==> IsBearer(r.value)
                      && Str(AccessToken(r.value)) == endpoint(TokenCallFor(config, id)).value.fields["access_token"]
  {
    match endpoint(TokenCallFor(config, id))
    case None => Err(RequestFailed)
    case Some(reply) =>
      var access :- PyGetItem(reply, "access_token");
      if access.Str? then Ok(BearerPrefix + access.s) else Err(TypeError)
  }
}
