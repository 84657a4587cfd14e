/**
 * The client's process-wide state and the calls that change it. The two module-level
 * dictionaries become the fields of one `Session`; every method is specified by the
 * function of the old state that the Auth and Api modules define.
 */
module Client {
  import opened Values
  import opened Auth
  import opened Api

  class Session {
    // the `token` dictionary
    var bearer: Option<string>
    var expiration: Option<int>
    // the `credentials` dictionary
    var clientId: Option<string>
    var username: Option<string>
    var password: Option<string>
    var tenantId: Option<string>
    var clientSecret: Option<string>

    /** Both dictionaries as one value. */
    function State(): Store
      reads this
    {
      Store(Token(bearer, expiration), Credentials(clientId, username, password, tenantId, clientSecret))
    }

    ghost predicate Valid()
      reads this
    {
      Coherent(State())
    }

    /** The module as it is loaded: every field of both dictionaries is `None`. */
    constructor ()
      ensures Valid() && State() == Initial
    {
      bearer, expiration := None, None;
      clientId, username, password, tenantId, clientSecret := None, None, None, None, None;
    }

    /** `get_token`: the stored bearer and expiry. */
    function GetToken(): (t: Token)
      reads this
      ensures t == State().token
    {
      Token(bearer, expiration)
    }

    /** `set_token`: formats the bearer and restarts the one-hour lifetime; the credentials stay as they were. */
    method SetToken(b: Option<string>, now: int)
      modifies this
      ensures Valid()
      ensures State() == old(State()).(token := Issue(b, now))
    {
      bearer := Some(BEARER_PREFIX + Show(b));
      expiration := Some(now + TOKEN_LIFETIME);
    }

    /** `set_credentials`: all five credential fields are replaced together; the token stays as it was. */
    method SetCredentials(clientId: Option<string>, username: Option<string>, password: Option<string>,
                          tenantId: Option<string>, clientSecret: Option<string>)
      modifies this
      ensures Valid() <==> old(Valid())
      ensures State() == old(State()).(credentials := Credentials(clientId, username, password, tenantId, clientSecret))
    {
      this.clientId := clientId;
      this.username := username;
      this.password := password;
      this.tenantId := tenantId;
      this.clientSecret := clientSecret;
    }

    /**
     * `connect`: sends the login form to the tenant's token endpoint and, from the answer
     * `response` received at `now`, rewrites both dictionaries.
     */
    method Connect(response: LoginResponse, now: int,
                   clientId: Option<string>, username: Option<string>, password: Option<string>,
                   tenantId: Option<string> := Some(DEFAULT_TENANT), clientSecret: Option<string> := None)
      returns (request: LoginRequest)
      modifies this
      ensures Valid()
      ensures request == LoginRequestFor(Credentials(clientId, username, password, tenantId, clientSecret))
      ensures State() == AfterLogin(Credentials(clientId, username, password, tenantId, clientSecret), response, now)
    {
      var body := LoginBody(Credentials(clientId, username, password, tenantId, clientSecret));
      request := LoginRequest(TokenEndpoint(tenantId), body);
      if response.status == HTTP_OK {
        SetCredentials(clientId, username, password, tenantId, clientSecret);
        SetToken(Some(response.accessToken), now);
      } else {
        SetCredentials(None, None, None, None, None);
        SetToken(None, now);
      }
    }

    /**
     * `verify_token` at time `now`; `response` is what the token endpoint answers if a
     * renewal is needed. Returns the verdict and the login request sent, if any.
     */
    method VerifyToken(now: int, response: LoginResponse) returns (ok: bool, renewal: Option<LoginRequest>)
      requires Valid()
      modifies this
      ensures Valid()
      ensures Verification(ok, renewal, State()) == Verify(old(State()), now, response)
    {
      if bearer == None {
        return false, None;
      }
      if expiration.value < now {
        var request := Connect(response, now, clientId, username, password, tenantId, clientSecret);
        return true, Some(request);
      }
      return true, None;
    }

    /**
     * Any resource operation: the token check, then the operation's guard on `choice`, then
     * one request with the current bearer whose answer `status` is compared with the
     * operation's expected code.
     */
    method Call(op: Operation, choice: string, now: int, login: LoginResponse, status: int)
      returns (renewal: Option<LoginRequest>, request: Option<ApiRequest>, outcome: Outcome)
      requires Valid()
      modifies this
      ensures Valid()
      ensures Step(State(), renewal, request, outcome) == Dispatch(old(State()), op, choice, now, login, status)
    {
      var ok;
      ok, renewal := VerifyToken(now, login);
      if !ok {
        return renewal, None, NotConnected;
      }
      if !Admits(op, choice) {
        return renewal, None, InvalidValue;
      }
      request := Some(ApiRequest(op, bearer.value, choice));
      outcome := if status == ExpectedStatus(op) then Succeeded else Failed(status);
    }

    /**
     * `get_workspace`: a groups listing answered with `status` and the records `groups`;
     * on success the first workspace with the given id, otherwise `None`.
     */
    method GetWorkspace(workspaceId: string, now: int, login: LoginResponse, status: int, groups: seq<Workspace>)
      returns (renewal: Option<LoginRequest>, request: Option<ApiRequest>, found: Option<Workspace>)
      requires Valid()
      modifies this
      ensures Valid()
      ensures var r := Dispatch(old(State()), Operation.GetWorkspace, "", now, login, status);
        State() == r.store && renewal == r.renewal && request == r.request &&
        found == if r.outcome == Succeeded then FirstWithId(groups, workspaceId) else None
    {
      var outcome;
      renewal, request, outcome := Call(Operation.GetWorkspace, "", now, login, status);
      found := if outcome == Succeeded then FirstWithId(groups, workspaceId) else None;
    }
  }
}
