/** The newer front-end's HTTP client (`APIClient`): one shared instance that keeps the
    bearer token, the default headers sent with every request and the token in
    `localStorage`, and that forces a logout when any response carries status 401. The
    transport is a parameter: each call is given the reply the server would produce. */
module ApiClient {
  import opened Common
  import opened Storage

  const ContentTypeHeader := "Content-Type"
  const AuthorizationHeader := "Authorization"
  const JsonMediaType := "application/json"
  /** Where a 401 sends the browser. */
  const LoginPage := "/auth/login"

  /** The `Authorization` value for a bearer token: the scheme name, one space, the token
      (section 2.1 of RFC 6750). */
  function BearerValue(token: string): (v: string)
    ensures StartsWith(v, "Bearer ") && v[|"Bearer "|..] == token
  {
    "Bearer " + token
  }

  datatype Verb = Get | Post

  /** The endpoints the client calls, relative to the base URL. */
  datatype Endpoint = SignupCall | LoginCall | VerifyEmailCall | ForgotPasswordCall
                    | ResetPasswordCall | ChatCall | SessionsCall | HistoryCall | HealthCall

  function Route(e: Endpoint): (r: (Verb, string))
    ensures r.0 == Get <==> e in {SessionsCall, HistoryCall, HealthCall}
  {
    match e
    case SignupCall => (Post, "/api/auth/signup")
    case LoginCall => (Post, "/api/auth/login")
    case VerifyEmailCall => (Post, "/api/auth/verify-email")
    case ForgotPasswordCall => (Post, "/api/auth/forgot-password")
    case ResetPasswordCall => (Post, "/api/auth/reset-password")
    case ChatCall => (Post, "/api/agent/chat")
    case SessionsCall => (Get, "/api/agent/sessions")
    case HistoryCall => (Get, "/api/agent/history")
    case HealthCall => (Get, "/health")
  }

  /** A request as it leaves the client: verb, path and the headers attached to it. */
  datatype Sent = Sent(verb: Verb, path: string, headers: map<string, string>)

  /** How a call ends: the reply body, or a rejection carrying the HTTP status when a
      response arrived at all (`error.response?.status`). */
  datatype Reply<T> = Received(body: T) | HttpFailure(status: Option<int>, detail: string)

  predicate IsUnauthorized<T>(r: Reply<T>)
  {
    r.HttpFailure? && r.status == Some(401)
  }

  /** The `{success, message}` reply of the verification and password-reset endpoints. */
  datatype MessageResponse = MessageResponse(success: bool, message: string)

  /** The login reply: `access_token` and `user` may be absent. */
  datatype LoginReply = LoginReply(success: bool, message: string, accessToken: Option<string>,
                                   user: Option<UserRecord>)

  /** The default headers the client holds: the JSON content type, plus the bearer header
      exactly when a token is installed. */
  function DefaultHeaders(token: Option<string>): (h: map<string, string>)
    ensures ContentTypeHeader in h && h[ContentTypeHeader] == JsonMediaType
    ensures AuthorizationHeader in h <==> Truthy(token)
    ensures AuthorizationHeader in h ==> h[AuthorizationHeader] == BearerValue(token.value)
  {
    var base := map[ContentTypeHeader := JsonMediaType];
    if Truthy(token) then base[AuthorizationHeader := BearerValue(token.value)] else base
  }

  class Client {
    var token: Option<string>
    var headers: map<string, string>
    /** The last page assigned to `window.location.href`, if any. */
    var location: Option<string>
    const store: BrowserStorage
    const codec: JsonCodec

    /** The header the client sends always agrees with the token it holds. */
    predicate Valid()
      reads this
    {
      && ContentTypeHeader in headers && headers[ContentTypeHeader] == JsonMediaType
      && (AuthorizationHeader in headers ==> token.Some? && headers[AuthorizationHeader] == BearerValue(token.value))
    }

    /** Construction reads the stored token and installs it as the bearer header when it is
        non-empty; writing it back leaves the storage as it was. */
    constructor (store: BrowserStorage, codec: JsonCodec)
      modifies store
      ensures this.store == store && this.codec == codec && Valid()
      ensures token == store.GetItem(AuthTokenKey)
      ensures headers == DefaultHeaders(token)
      ensures location.None? && store.items == old(store.items)
    {
      this.store, this.codec := store, codec;
      token := store.GetItem(AuthTokenKey);
      headers := map[ContentTypeHeader := JsonMediaType];
      location := None;
      new;
      if Truthy(token) {
        SetAuthToken(token.value);
      }
    }

    /** `getToken()`: the token the client holds, which is the one its bearer header
        carries; `SetAuthToken` installs it and `ClearAuth` removes it. */
    function GetToken(): (t: Option<string>)
      reads this
      ensures t == token
      ensures Valid() && AuthorizationHeader in headers ==> t.Some? && headers[AuthorizationHeader] == BearerValue(t.value)
    {
      token
    }

    /** `setAuthToken(t)`: `GetToken()` returns `t` afterwards, the bearer header carries
        it and it is persisted. */
    method SetAuthToken(t: string)
      requires Valid()
      modifies this, store
      ensures Valid() && GetToken() == Some(t) && location == old(location)
      ensures headers == old(headers)[AuthorizationHeader := BearerValue(t)]
      ensures store.items == old(store.items)[AuthTokenKey := t]
    {
      token := Some(t);
      headers := headers[AuthorizationHeader := BearerValue(t)];
      store.SetItem(AuthTokenKey, t);
    }

    /** `clearAuth()`: no token, no bearer header, neither the token nor the user stored. */
    method ClearAuth()
      requires Valid()
      modifies this, store
      ensures Valid() && GetToken().None? && location == old(location)
      ensures headers == old(headers) - {AuthorizationHeader}
      ensures store.items == old(store.items) - {AuthTokenKey, UserKey}
    {
      token := None;
      headers := headers - {AuthorizationHeader};
      store.RemoveItem(AuthTokenKey);
      store.RemoveItem(UserKey);
    }

    /** The response interceptor. Every reply reaches the caller unchanged; a 401 first
        clears the authentication and sends the browser to the login page, any other
        reply leaves the client and the storage as they were. */
    method Intercept<T>(reply: Reply<T>) returns (result: Reply<T>)
      requires Valid()
      modifies this, store
      ensures Valid() && result == reply
      ensures IsUnauthorized(reply) ==>
                && token.None? && headers == old(headers) - {AuthorizationHeader}
                && store.items == old(store.items) - {AuthTokenKey, UserKey}
                && location == Some(LoginPage)
      ensures !IsUnauthorized(reply) ==>
                token == old(token) && headers == old(headers) && location == old(location)
                && store.items == old(store.items)
    {
      if IsUnauthorized(reply) {
        ClearAuth();
        location := Some(LoginPage);
      }
      result := reply;
    }

    /** One call through the client: the request carries the current default headers and
        the reply passes through the interceptor. */
    method Call<T>(e: Endpoint, reply: Reply<T>) returns (sent: Sent, result: Reply<T>)
      requires Valid()
      modifies this, store
      ensures Valid() && result == reply
      ensures sent == Sent(Route(e).0, Route(e).1, old(headers))
      ensures IsUnauthorized(reply) ==>
                && token.None? && headers == old(headers) - {AuthorizationHeader}
                && store.items == old(store.items) - {AuthTokenKey, UserKey}
                && location == Some(LoginPage)
      ensures !IsUnauthorized(reply) ==>
                token == old(token) && headers == old(headers) && location == old(location)
                && store.items == old(store.items)
    {
      sent := Sent(Route(e).0, Route(e).1, headers);
      result := Intercept(reply);
    }

    /** `login(data)`: the token is installed only when the reply has a non-empty
        `access_token`, and the user is stored only in that case and only when the reply
        has one. */
    method Login(reply: Reply<LoginReply>) returns (sent: Sent, result: Reply<LoginReply>)
      requires Valid()
      modifies this, store
      ensures Valid() && result == reply && sent.path == "/api/auth/login" && sent.headers == old(headers)
      ensures reply.Received? && Truthy(reply.body.accessToken) ==>
                && GetToken() == reply.body.accessToken
                && headers == old(headers)[AuthorizationHeader := BearerValue(reply.body.accessToken.value)]
                && store.items == (if reply.body.user.Some?
                                   then old(store.items)[AuthTokenKey := reply.body.accessToken.value]
                                                        [UserKey := codec.stringify(reply.body.user)]
                                   else old(store.items)[AuthTokenKey := reply.body.accessToken.value])
      ensures reply.Received? && !Truthy(reply.body.accessToken) ==>
                token == old(token) && headers == old(headers) && store.items == old(store.items)
      ensures IsUnauthorized(reply) ==>
                && token.None? && headers == old(headers) - {AuthorizationHeader}
                && store.items == old(store.items) - {AuthTokenKey, UserKey}
      ensures reply.HttpFailure? && !IsUnauthorized(reply) ==>
                token == old(token) && headers == old(headers) && store.items == old(store.items)
      ensures location == (if IsUnauthorized(reply) then Some(LoginPage) else old(location))
    {
      sent, result := Call(LoginCall, reply);
      if result.Received? && Truthy(result.body.accessToken) {
        SetAuthToken(result.body.accessToken.value);
        if result.body.user.Some? {
          store.SetItem(UserKey, codec.stringify(result.body.user));
        }
      }
    }

    /** `googleLogin()`: a full-page navigation to the back-end's Google login endpoint. */
    method GoogleLogin(baseUrl: string)
      modifies this`location
      ensures location == Some(baseUrl + "/api/auth/google/login")
    {
      location := Some(baseUrl + "/api/auth/google/login");
    }
  }
}
