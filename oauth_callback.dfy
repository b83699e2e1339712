/** The newer front-end's OAuth landing page: one decision over the `error`, `token` and
    `user` query parameters the back-end's Google callback puts in the redirect URL. */
module OAuthCallback {
  import opened Common
  import opened Storage
  import opened Uri

  /** How the page turns the `user` parameter into JSON text. As written it applies
      `decodeURIComponent` to a value `URLSearchParams` has already decoded
      (`DecodeTwice`); decoding once (`DecodeOnce`) is what the back-end's encoding calls
      for. */
  datatype UserDecoding = DecodeTwice | DecodeOnce

  /** The JSON text the page hands to `JSON.parse`, or `None` where decoding throws. */
  function UserText(userParam: string, decoding: UserDecoding): (t: Option<string>)
    ensures decoding == DecodeOnce ==> t == Some(userParam)
    ensures '%' !in userParam ==> t == Some(userParam)
  {
    match decoding
    case DecodeOnce => Some(userParam)
    case DecodeTwice =>
      if '%' in userParam then DecodeUriComponent(userParam)
      else DecodeWithoutPercent(userParam); DecodeUriComponent(userParam)
  }

  /** The `login(user, token)` call the page makes. */
  datatype Credentials = Credentials(user: Option<UserRecord>, token: string)

  /** The credentials both callback pages extract: present when `token` and `user` are
      non-empty and the user text decodes and parses. */
  function CallbackCredentials(params: seq<(string, string)>, codec: JsonCodec, decoding: UserDecoding)
    : (c: Option<Credentials>)
    ensures c.Some? <==>
              && Truthy(GetParam(params, "token")) && Truthy(GetParam(params, "user"))
              && UserText(GetParam(params, "user").value, decoding).Some?
              && codec.parse(UserText(GetParam(params, "user").value, decoding).value).Value?
    ensures c.Some? ==>
              && c.value.token == GetParam(params, "token").value
              && c.value.user == codec.parse(UserText(GetParam(params, "user").value, decoding).value).user
  {
    var token := GetParam(params, "token");
    var userStr := GetParam(params, "user");
    if Truthy(token) && Truthy(userStr) then
      match UserText(userStr.value, decoding)
      case None => None
      case Some(text) =>
        match codec.parse(text)
        case Malformed => None
        case Value(u) => Some(Credentials(u, token.value))
    else None
  }

  /** What the page does: at most one `login` call, and exactly one navigation. */
  datatype Outcome = Outcome(login: Option<Credentials>, navigateTo: string)

  const LoginPage := "/auth/login"
  const DashboardPage := "/dashboard"

  /** `handleOAuthCallback`. A non-empty `error` wins over everything else; otherwise the
      page logs in and goes to the dashboard when credentials can be extracted, and goes
      back to the login page in every other case. */
  function HandleCallback(search: string, codec: JsonCodec, decoding: UserDecoding): (o: Outcome)
    ensures o.navigateTo == DashboardPage || o.navigateTo == LoginPage
    ensures o.login.Some? <==> o.navigateTo == DashboardPage
    ensures Truthy(GetParam(ParseQuery(search), "error")) ==> o == Outcome(None, LoginPage)
    ensures !Truthy(GetParam(ParseQuery(search), "error")) ==>
              o.login == CallbackCredentials(ParseQuery(search), codec, decoding)
  {
    var params := ParseQuery(search);
    if Truthy(GetParam(params, "error")) then Outcome(None, LoginPage)
    else
      match CallbackCredentials(params, codec, decoding)
      case Some(c) => Outcome(Some(c), DashboardPage)
      case None => Outcome(None, LoginPage)
  }
}
