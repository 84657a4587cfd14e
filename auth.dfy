/**
 * The authentication state of the client: the module-level `token` and `credentials`
 * dictionaries, the login request `connect` sends, and what `set_token`, `connect`
 * and `verify_token` do to that state, written as functions of the old state.
 */
module Auth {
  import opened Values

  const HTTP_OK := 200
  /** `datetime.timedelta(hours = 1)`, in seconds. */
  const TOKEN_LIFETIME := 3600
  const BEARER_PREFIX := "Bearer "
  const RESOURCE := "https://analysis.windows.net/powerbi/api"
  const DEFAULT_TENANT := "common"
  const LOGIN_HOST := "https://login.microsoftonline.com/"
  const TOKEN_PATH := "/oauth2/token"

  /** The `token` dictionary: the Authorization header value and its expiry instant (seconds). */
  datatype Token = Token(bearer: Option<string>, expiration: Option<int>)

  /** The `credentials` dictionary, kept so that an expired token can be renewed. */
  datatype Credentials = Credentials(
    clientId: Option<string>,
    username: Option<string>,
    password: Option<string>,
    tenantId: Option<string>,
    clientSecret: Option<string>)

  /** Both module-level dictionaries together. */
  datatype Store = Store(token: Token, credentials: Credentials)

  const NoCredentials := Credentials(None, None, None, None, None)
  /** The state when the module is loaded. */
  const Initial := Store(Token(None, None), NoCredentials)

  /** `verify_token`'s test: a bearer value has been stored. */
  predicate Connected(s: Store)
  {
    s.token.bearer.Some?
  }

  /** The two token fields are written together, so either both are set or neither is. */
  predicate Coherent(s: Store)
  {
    s.token.bearer.Some? == s.token.expiration.Some?
  }

  /** One `key=value` entry of the form-encoded login body; the value may be Python's `None`. */
  datatype FormField = FormField(name: string, value: Option<string>)

  /** The POST `connect` sends to the token endpoint. */
  datatype LoginRequest = LoginRequest(url: string, body: seq<FormField>)

  /** What the client reads from the token endpoint's answer. */
  datatype LoginResponse = LoginResponse(status: int, accessToken: string)

  function Names(body: seq<FormField>): seq<string>
  {
    seq(|body|, i requires 0 <= i < |body| => body[i].name)
  }

  predicate Carries(body: seq<FormField>, name: string, value: Option<string>)
  {
    FormField(name, value) in body
  }

  /**
   * The login form: always the password grant, the fixed resource and the three identity
   * fields, and the client secret exactly when it is truthy. The tenant goes into the URL,
   * never into the body.
   */
  function LoginBody(c: Credentials): (body: seq<FormField>)
    ensures Carries(body, "grant_type", Some("password"))
    ensures Carries(body, "resource", Some(RESOURCE))
    ensures Carries(body, "client_id", c.clientId)
    ensures Carries(body, "username", c.username)
    ensures Carries(body, "password", c.password)
    ensures "client_secret" in Names(body) <==> Truthy(c.clientSecret)
    ensures Truthy(c.clientSecret) ==> Carries(body, "client_secret", c.clientSecret)
    ensures "tenant_id" !in Names(body)
    ensures forall i, j :: 0 <= i < j < |body| ==> body[i].name != body[j].name
    ensures |body| == if Truthy(c.clientSecret) then 6 else 5
  {
    var body :=
      if Truthy(c.clientSecret) then
        [ FormField("grant_type", Some("password")),
          FormField("resource", Some(RESOURCE)),
          FormField("client_id", c.clientId),
          FormField("client_secret", c.clientSecret),
          FormField("username", c.username),
          FormField("password", c.password) ]
      else
        [ FormField("grant_type", Some("password")),
          FormField("resource", Some(RESOURCE)),
          FormField("client_id", c.clientId),
          FormField("username", c.username),
          FormField("password", c.password) ];
    assert Truthy(c.clientSecret) ==> Names(body)[3] == "client_secret";
    body
  }

  /** The tenant-scoped token endpoint; a `None` tenant is formatted as the text "None". */
  function TokenEndpoint(tenant: Option<string>): (url: string)
    ensures LOGIN_HOST <= url && |url| == |LOGIN_HOST| + |Show(tenant)| + |TOKEN_PATH|
    ensures url[|LOGIN_HOST|..|url| - |TOKEN_PATH|] == Show(tenant)
    ensures url[|url| - |TOKEN_PATH|..] == TOKEN_PATH
  {
    var url := LOGIN_HOST + Show(tenant) + TOKEN_PATH;
    assert url[|LOGIN_HOST|..|url| - |TOKEN_PATH|] == Show(tenant);
    assert url[|url| - |TOKEN_PATH|..] == TOKEN_PATH;
    url
  }

  /** The POST `connect` sends: the tenant selects the endpoint and has no effect on the form body. */
  function LoginRequestFor(c: Credentials): (r: LoginRequest)
    ensures r.url == TokenEndpoint(c.tenantId)
    ensures r.body == LoginBody(c.(tenantId := None))
  {
    LoginRequest(TokenEndpoint(c.tenantId), LoginBody(c))
  }

  /**
   * The token `set_token(b)` writes at time `now`: a bearer is always stored (for `None`
   * it is "Bearer None"), stripping the prefix gives back the formatted argument, and it
   * expires exactly one hour later.
   */
  function Issue(b: Option<string>, now: int): (t: Token)
    ensures t.bearer.Some? && t.expiration == Some(now + TOKEN_LIFETIME)
    ensures BEARER_PREFIX <= t.bearer.value && t.bearer.value[|BEARER_PREFIX|..] == Show(b)
  {
    Token(Some(BEARER_PREFIX + Show(b)), Some(now + TOKEN_LIFETIME))
  }

  /**
   * Both stores after `connect(c)` got `response` at time `now`. Nothing of the old state
   * survives. Status 200 keeps exactly the given credentials and the returned access token;
   * any other status clears every credential field yet still stores a fresh "Bearer None".
   */
  function AfterLogin(c: Credentials, response: LoginResponse, now: int): (s: Store)
    ensures Coherent(s) && Connected(s)
    ensures s.token.expiration == Some(now + TOKEN_LIFETIME)
    ensures response.status == HTTP_OK ==>
      s.credentials == c && s.token.bearer == Some(BEARER_PREFIX + response.accessToken)
    ensures response.status != HTTP_OK ==>
      s.credentials == NoCredentials && s.token.bearer == Some("Bearer None")
  {
    if response.status == HTTP_OK then
      Store(Issue(Some(response.accessToken), now), c)
    else
      assert BEARER_PREFIX + Show(None) == "Bearer None";
      Store(Issue(None, now), NoCredentials)
  }

  /** The result of `verify_token`, the login it sent (if any) and the state it leaves. */
  datatype Verification = Verification(ok: bool, renewal: Option<LoginRequest>, store: Store)

  /**
   * `verify_token` at time `now`, with `response` the answer a renewal would get.
   * It fails exactly when no bearer was ever stored, and then changes nothing. A token
   * whose expiry is not before `now` is used as it is. An expired one is renewed by one
   * login with the stored credentials, and the call succeeds whatever that login returns.
   * After a success the stored token has not expired.
   */
  function Verify(s: Store, now: int, response: LoginResponse): (v: Verification)
    requires Coherent(s)
    ensures Coherent(v.store)
    ensures v.ok <==> Connected(s)
    ensures v.renewal.Some? <==> Connected(s) && s.token.expiration.value < now
    ensures v.renewal.None? ==> v.store == s
    ensures v.renewal.Some? ==>
      v.renewal.value == LoginRequestFor(s.credentials) &&
      v.store == AfterLogin(s.credentials, response, now)
    ensures v.ok ==> Connected(v.store) && now <= v.store.token.expiration.value
  {
    if s.token.bearer == None then
      Verification(false, None, s)
    else if s.token.expiration.value < now then
      Verification(true, Some(LoginRequestFor(s.credentials)), AfterLogin(s.credentials, response, now))
    else
      Verification(true, None, s)
  }

  /** A failed login does not disconnect: the next check succeeds, and once the hour is over it renews with cleared credentials. */
  lemma FailedLoginStaysConnected(c: Credentials, response: LoginResponse, now: int, later: int, next: LoginResponse)
    requires response.status != HTTP_OK
    ensures Verify(AfterLogin(c, response, now), later, next).ok
    ensures later > now + TOKEN_LIFETIME ==>
      Verify(AfterLogin(c, response, now), later, next).renewal == Some(LoginRequestFor(NoCredentials))
  {
  }

  /** Checking twice before the (possibly renewed) token expires logs in at most once. */
  lemma SecondCheckIsCacheHit(s: Store, now: int, later: int, first: LoginResponse, second: LoginResponse)
    requires Coherent(s) && Connected(s)
    requires now <= later <= Verify(s, now, first).store.token.expiration.value
    ensures Verify(Verify(s, now, first).store, later, second).renewal.None?
    ensures Verify(Verify(s, now, first).store, later, second).store == Verify(s, now, first).store
  {
  }
}
