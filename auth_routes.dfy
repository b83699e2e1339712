/** The back-end's `/api/auth` routes: each handler calls the account service and turns its
    result into an HTTP reply, queues the e-mail the service's result calls for, and, for
    Google sign-in, redirects the browser to the front-end with the token and the user in
    the query string. */
module AuthRoutes {
  import opened Common
  import opened Uri
  import opened AccountService

  /** A reply: a body with status 200, a redirect, or an `HTTPException`. */
  datatype HttpReply<T> = Ok(body: T) | Redirect(url: string) | Failure(status: nat, detail: string)

  /** The background e-mail tasks. */
  datatype Mail = VerificationMail(recipient: string, otp: string, name: Option<string>)
                | ResetMail(recipient: string, otp: string)

  datatype SignupBody = SignupBody(success: bool, message: string, user: Option<UserResponse>)
  datatype LoginBody = LoginBody(success: bool, message: string, accessToken: Option<string>,
                                 user: Option<UserResponse>)
  datatype MessageBody = MessageBody(success: bool, message: string)

  const ResetNotice := "If an account exists with this email, a password reset OTP will be sent"
  const InactiveAccount := "User account is inactive"

  /** The status of a failed sign-up: 400 for an address already taken, 500 otherwise. */
  function SignupStatus(message: string): (code: nat)
    ensures code == 400 <==> message == AlreadyExists
    ensures code == 400 || code == 500
  {
    if message == AlreadyExists then 400 else 500
  }

  /** The status of a failed login: 403 for an inactive account, 401 for bad credentials,
      500 for anything else. */
  function LoginStatus(message: string): (code: nat)
    ensures code == 403 <==> message == InactiveAccount
    ensures code == 401 <==> message == BadCredentials
    ensures code in {401, 403, 500}
  {
    if message == InactiveAccount then 403 else if message == BadCredentials then 401 else 500
  }

  /** The sign-up handler's mapping: a failure becomes an exception with SignupStatus, a
      success the 200 body, with the verification mail queued exactly when a code came back. */
  function SignupReply(r: SignupResult, email: string, fullName: Option<string>)
    : (out: (HttpReply<SignupBody>, Option<Mail>))
    ensures out.0.Ok? <==> r.success
    ensures !r.success ==> out == (Failure(SignupStatus(r.message), r.message), None)
    ensures r.success ==> out.0 == Ok(SignupBody(true, r.message, r.user))
    ensures out.1.Some? <==> r.success && Truthy(r.otp)
    ensures out.1.Some? ==> out.1.value == VerificationMail(email, r.otp.value, fullName)
  {
    if !r.success then (Failure(SignupStatus(r.message), r.message), None)
    else (Ok(SignupBody(true, r.message, r.user)),
          if Truthy(r.otp) then Some(VerificationMail(email, r.otp.value, fullName)) else None)
  }

  /** `POST /signup`. A failure leaves the tables alone and sends no mail; a success mails
      the very code the account's row now holds. */
  method Signup(svc: AuthService, email: string, password: string, fullName: Option<string>, now: int,
                draw: nat, newId: string, fault: Fault) returns (reply: HttpReply<SignupBody>, mail: Option<Mail>)
    requires svc.Valid()
    modifies svc
    ensures svc.Valid() && svc.resets == old(svc.resets)
    ensures reply.Redirect? == false
    ensures reply.Failure? ==> mail.None? && svc.users == old(svc.users)
                               && reply.status == SignupStatus(reply.detail)
    ensures email != "" && password != "" && svc.deps.emailFormatValid(email) && svc.deps.validatePassword(password).0
            && fault != Raises(0) && FindByEmail(old(svc.users), email).Some?
            && old(svc.users)[FindByEmail(old(svc.users), email).value].isVerified ==>
              reply == Failure(400, AlreadyExists)
    ensures reply.Ok? ==>
              && reply.body.success
              && mail == Some(VerificationMail(email, GenerateOtp(draw), fullName))
              && HoldsCode(svc.users, email, GenerateOtp(draw), now + OtpLifetime(svc.deps))
  {
    ghost var before := svc.users;
    var r := svc.Signup(email, password, fullName, now, draw, newId, fault);
    SignupAlreadyExists(before, svc.deps, email, password, fullName, now, draw, newId, fault);
    var out := SignupReply(r, email, fullName);
    reply, mail := out.0, out.1;
    if r.success {
      SignupStoresCode(before, svc.deps, email, password, fullName, now, draw, newId, fault);
      assert HoldsCode(svc.users, email, GenerateOtp(draw), now + OtpLifetime(svc.deps));
      assert r.otp == Some(GenerateOtp(draw));
    } else {
      assert svc.users == before;
    }
  }

  /** The mapping shared by e-mail verification and password reset: every refusal is a 400
      carrying the service's message. */
  function MessageReply(r: Status): (reply: HttpReply<MessageBody>)
    ensures reply.Ok? <==> r.success
    ensures reply.Ok? ==> reply.body == MessageBody(true, r.message)
    ensures reply.Failure? ==> reply.status == 400 && reply.detail == r.message
  {
    if r.success then Ok(MessageBody(true, r.message)) else Failure(400, r.message)
  }

  /** `POST /verify-email`. */
  method VerifyEmail(svc: AuthService, email: string, otp: string, now: int, fault: Fault)
    returns (reply: HttpReply<MessageBody>)
    requires svc.Valid()
    modifies svc
    ensures svc.Valid() && svc.resets == old(svc.resets)
    ensures reply.Failure? ==> reply.status == 400 && svc.users == old(svc.users)
    ensures reply.Ok? ==> reply.body.success
    ensures email != "" && otp != "" && fault !in {Raises(0), Raises(1)} && FindByEmail(old(svc.users), email).Some? ==>
              var u := old(svc.users)[FindByEmail(old(svc.users), email).value];
              (reply.Ok? <==> u.isVerified || VerifyDecision(u, otp, now) == Accept)
  {
    var r := svc.VerifyEmail(email, otp, now, fault);
    reply := MessageReply(r);
  }

  /** `POST /login`, a read of the users table. */
  function LoginRoute(users: seq<UserRow>, deps: Deps, email: string, password: string, fault: Fault)
    : (reply: HttpReply<LoginBody>)
    ensures !reply.Redirect?
    ensures reply.Ok? <==> Login(users, deps, email, password, fault).success
    ensures reply.Ok? ==> reply.body.accessToken.Some? && reply.body.user.Some?
                          && reply.body.accessToken == Some(deps.createAccessToken(reply.body.user.value.id))
    ensures reply.Failure? && reply.status == 403 <==>
              && email != "" && password != "" && deps.emailFormatValid(email) && fault != Raises(0)
              && FindByEmail(users, email).Some? && !users[FindByEmail(users, email).value].isActive
    ensures reply.Failure? ==> reply.status in {401, 403, 500}
  {
    var r := Login(users, deps, email, password, fault);
    if r.success then Ok(LoginBody(true, r.message, r.token, r.user))
    else Failure(LoginStatus(r.message), r.message)
  }

  /** The reply to an unknown address is the reply to a wrong password: a 401 either way. */
  lemma {:induction false} LoginRouteHidesAccounts(users: seq<UserRow>, deps: Deps, email: string, password: string,
                                                   other: string, fault: Fault)
    requires email != "" && password != "" && deps.emailFormatValid(email) && fault != Raises(0)
    requires FindByEmail(users, email).Some?
    requires users[FindByEmail(users, email).value].isActive
    requires !deps.verifyPassword(password, users[FindByEmail(users, email).value].passwordHash)
    requires FindByEmail(users, other).None? && other != "" && deps.emailFormatValid(other)
    ensures LoginRoute(users, deps, email, password, fault) == LoginRoute(users, deps, other, password, fault)
            == Failure(401, BadCredentials)
  {
    LoginHidesAccounts(users, deps, email, password, other, fault);
  }

  /** The forgot-password handler's mapping: a failure is a 500; a success is always the
      same notice, with the reset mail queued exactly when a code came back. */
  function ForgotReply(r: ResetRequestResult, email: string): (out: (HttpReply<MessageBody>, Option<Mail>))
    ensures !r.success ==> out == (Failure(500, r.message), None)
    ensures r.success ==> out.0 == Ok(MessageBody(true, ResetNotice))
    ensures out.1.Some? <==> r.success && Truthy(r.otp)
    ensures out.1.Some? ==> out.1.value == ResetMail(email, r.otp.value)
  {
    if !r.success then (Failure(500, r.message), None)
    else (Ok(MessageBody(true, ResetNotice)), if Truthy(r.otp) then Some(ResetMail(email, r.otp.value)) else None)
  }

  /** `POST /forgot-password`. Whenever the service succeeds the reply is the same fixed
      notice, so it does not reveal whether the address has an account; only a known
      address gets a mail, carrying the code of the row just added. */
  method ForgotPassword(svc: AuthService, email: string, now: int, draw: nat, newId: string, fault: Fault)
    returns (reply: HttpReply<MessageBody>, mail: Option<Mail>)
    requires svc.Valid()
    modifies svc
    ensures svc.Valid() && svc.users == old(svc.users)
    ensures reply.Failure? ==> reply.status == 500 && mail.None? && svc.resets == old(svc.resets)
    ensures email != "" && fault !in {Raises(0), Raises(1)} ==> reply == Ok(MessageBody(true, ResetNotice))
    ensures mail.Some? <==> email != "" && svc.deps.emailFormatValid(email) && fault !in {Raises(0), Raises(1)}
                            && FindByEmail(svc.users, email).Some?
    ensures mail.Some? ==>
              && mail.value == ResetMail(email, GenerateOtp(draw))
              && svc.resets == old(svc.resets) + [ResetRow(newId, svc.users[FindByEmail(svc.users, email).value].id,
                                                           GenerateOtp(draw), At(now + OtpLifetime(svc.deps)), now, false)]
    ensures mail.None? ==> svc.resets == old(svc.resets)
  {
    var r := svc.RequestPasswordReset(email, now, draw, newId, fault);
    reply, mail := ForgotReply(r, email).0, ForgotReply(r, email).1;
  }

  /** `POST /reset-password`. */
  method ResetPassword(svc: AuthService, email: string, otp: string, newPassword: string, confirmPassword: string,
                       now: int, fault: Fault) returns (reply: HttpReply<MessageBody>)
    requires svc.Valid()
    modifies svc
    ensures svc.Valid()
    ensures reply.Failure? ==> reply.status == 400 && svc.resets == old(svc.resets)
    ensures reply.Ok? ==> reply == Ok(MessageBody(true, "Password reset successfully"))
                          && FindByEmail(old(svc.users), email).Some?
                          && svc.users == UpdateById(old(svc.users), old(svc.users)[FindByEmail(old(svc.users), email).value].id,
                                                     PasswordPatch(svc.deps.hashPassword(newPassword)), now)
  {
    var r := svc.ResetPassword(email, otp, newPassword, confirmPassword, now, fault);
    reply := MessageReply(r);
  }

  /** `GET /google/login`: 501 when the Google client could not be set up, otherwise the
      client's redirect to Google's consent page. */
  function GoogleLogin(configured: bool, consentUrl: string): (reply: HttpReply<MessageBody>)
    ensures reply.Redirect? <==> configured
    ensures !configured ==> reply == Failure(501, "Google Auth not configured")
    ensures configured ==> reply.url == consentUrl
  {
    if !configured then Failure(501, "Google Auth not configured") else Redirect(consentUrl)
  }

  // ---------------------------------------------------------------- json.dumps

  function LowerHexDigit(v: nat): (c: char)
    requires v < 16
    ensures c as int < 0x80
  {
    if v < 10 then ('0' as int + v) as char else ('a' as int + v - 10) as char
  }

  /** `\uXXXX` with four lower-case hex digits. */
  function UnicodeEscape(v: nat): (r: string)
    requires v < 0x1_0000
    ensures |r| == 6 && IsAscii(r)
  {
    ['\\', 'u', LowerHexDigit(v / 0x1000), LowerHexDigit((v / 0x100) % 16), LowerHexDigit((v / 16) % 16),
     LowerHexDigit(v % 16)]
  }

  /** A printable ASCII character `json.dumps` writes as itself. */
  predicate JsonPlain(c: char)
  {
    ' ' <= c <= '~' && c != '"' && c != '\\'
  }

  /** One character as `json.dumps` writes it inside a string with `ensure_ascii`: quote
      and backslash escaped, the five short control escapes, every other character outside
      the printable ASCII range as `\u` escapes (a surrogate pair above U+FFFF). */
  function JsonChar(c: char): (r: string)
    ensures IsAscii(r) && |r| >= 1
    ensures JsonPlain(c) <==> r == [c]
  {
    var v := c as int;
    if c == '"' then "\\\""
    else if c == '\\' then "\\\\"
    else if c == '\n' then "\\n"
    else if c == '\r' then "\\r"
    else if c == '\t' then "\\t"
    else if v == 8 then "\\b"
    else if v == 12 then "\\f"
    else if ' ' <= c <= '~' then [c]
    else if v < 0x1_0000 then UnicodeEscape(v)
    else
      var n := v - 0x1_0000;
      UnicodeEscape(0xD800 + n / 0x400) + UnicodeEscape(0xDC00 + n % 0x400)
  }

  function JsonChars(s: string): (r: string)
    ensures IsAscii(r)
  {
    if s == [] then [] else JsonChar(s[0]) + JsonChars(s[1..])
  }

  /** A JSON string literal; always ASCII. */
  function JsonString(s: string): (r: string)
    ensures IsAscii(r) && |r| >= 2 && r[0] == '"' && r[|r| - 1] == '"'
  {
    "\"" + JsonChars(s) + "\""
  }

  lemma {:induction false} JsonCharsPlain(s: string)
    requires forall i :: 0 <= i < |s| ==> JsonPlain(s[i])
    ensures JsonChars(s) == s
  {
    if s != [] {
      JsonCharsPlain(s[1..]);
    }
  }

  lemma AsciiJoin(a: string, b: string)
    requires IsAscii(a) && IsAscii(b)
    ensures IsAscii(a + b)
  {
    assert forall i :: 0 <= i < |a + b| ==> (a + b)[i] == if i < |a| then a[i] else b[i - |a|];
  }

  /** Text and a JSON value that follows a key; ASCII when both are. */
  function Field(text: string, value: string): (r: string)
    requires IsAscii(text) && IsAscii(value)
    ensures IsAscii(r) && r == text + value
  {
    AsciiJoin(text, value);
    text + value
  }

  const IdKey := "{\"id\": "
  const EmailKey := ", \"email\": "
  const NameKey := ", \"full_name\": "
  const ActiveKey := ", \"is_active\": "
  const CreatedKey := ", \"created_at\": "

  lemma KeysAscii()
    ensures IsAscii(IdKey) && IsAscii(EmailKey) && IsAscii(NameKey) && IsAscii(ActiveKey) && IsAscii(CreatedKey)
    ensures IsAscii("}") && IsAscii("null") && IsAscii("true") && IsAscii("false")
  {
  }

  /** The dictionary the Google callback serialises, in its key order. */
  function UserJson(u: UserRow, isoformat: int -> string): (r: string)
    ensures IsAscii(r) && r != []
  {
    KeysAscii();
    var id := Field(IdKey, JsonString(u.id));
    var email := Field(id, Field(EmailKey, JsonString(u.email)));
    var name := Field(email, Field(NameKey, if u.fullName.Some? then JsonString(u.fullName.value) else "null"));
    var active := Field(name, Field(ActiveKey, if u.isActive then "true" else "false"));
    var created := Field(active, Field(CreatedKey, JsonString(isoformat(u.createdAt))));
    Field(created, "}")
  }

  // ---------------------------------------------------------------- Google callback

  /** The query string of the front-end URL the callback redirects to: the token as it is,
      the user JSON through `quote`. */
  function CallbackQuery(token: string, userJson: string): (q: string)
    ensures SafeToken(token) && IsAscii(userJson) ==> ParseQuery(q) == [("token", token), ("user", userJson)]
  {
    var q := "?token=" + token + "&user=" + Quote(userJson);
    assert q == "?" + "token" + "=" + token + "&" + "user" + "=" + Quote(userJson);
    if SafeToken(token) && IsAscii(userJson) then
      QueryPairs(token, userJson);
      TokenNameDecodes();
      UserNameDecodes();
      SafeTokenDecodes(token);
      FormDecodeQuote(userJson);
      q
    else q
  }

  function CallbackUrl(frontendUrl: string, token: string, userJson: string): (url: string)
    ensures |url| >= |frontendUrl| + 14 && url[..|frontendUrl| + 14] == frontendUrl + "/auth/callback"
    ensures url[|frontendUrl| + 14..] == CallbackQuery(token, userJson)
  {
    var base := frontendUrl + "/auth/callback";
    var url := base + CallbackQuery(token, userJson);
    assert url[..|base|] == base;
    assert url[|base|..] == CallbackQuery(token, userJson);
    url
  }

  /** What Google's verification yields: the profile, or the exception it raised. */
  datatype SsoResult = Profile(email: Option<string>, displayName: Option<string>) | SsoError(message: string)

  /** `str()` of an `HTTPException`, as the generic handler embeds it. */
  function ExceptionText(status: nat, detail: string): string
  {
    NatToString(status) + ": " + detail
  }

  const GoogleFailure := "Failed to login with Google"

  /** The callback's reply once the user is known, as written: the 400 raised for a missing
      user is inside the `try`, so the generic handler turns it into a 500. */
  function CallbackReplyAsWritten(user: Option<UserRow>, deps: Deps, frontendUrl: string, isoformat: int -> string)
    : (reply: HttpReply<MessageBody>)
    ensures user.None? ==> reply == Failure(500, "Google Login Error: " + ExceptionText(400, GoogleFailure))
    ensures user.Some? ==>
              reply == Redirect(CallbackUrl(frontendUrl, deps.createAccessToken(user.value.id), UserJson(user.value, isoformat)))
  {
    if user.None? then Failure(500, "Google Login Error: " + ExceptionText(400, GoogleFailure))
    else Redirect(CallbackUrl(frontendUrl, deps.createAccessToken(user.value.id), UserJson(user.value, isoformat)))
  }

  /** The reply the raised 400 is meant to give. */
  function CallbackReply(user: Option<UserRow>, deps: Deps, frontendUrl: string, isoformat: int -> string)
    : (reply: HttpReply<MessageBody>)
    ensures reply.Failure? <==> user.None?
    ensures reply.Failure? ==> reply == Failure(400, GoogleFailure)
    ensures user.Some? ==> reply == CallbackReplyAsWritten(user, deps, frontendUrl, isoformat)
  {
    if user.None? then Failure(400, GoogleFailure)
    else CallbackReplyAsWritten(user, deps, frontendUrl, isoformat)
  }

  /** The as-written reply reports a missing user as a server error, not as the 400 the
      handler raises for it. */
  lemma MissingUserStatus(deps: Deps, frontendUrl: string, isoformat: int -> string)
    ensures CallbackReplyAsWritten(None, deps, frontendUrl, isoformat).status == 500
    ensures CallbackReply(None, deps, frontendUrl, isoformat).status == 400
  {
  }

  /** `GET /google/callback`, as written: a profile without an e-mail, or a service that
      yields no user, is answered with the 500 of the generic handler (see MissingUserStatus
      and CallbackReply for the intended 400). The dictionary handed to the service has no
      `first_name`, so a new user is named after the display name alone. */
  method GoogleCallback(svc: AuthService, configured: bool, sso: SsoResult, frontendUrl: string, now: int,
                        newId: string, randomPassword: string, fault: Fault, isoformat: int -> string)
    returns (reply: HttpReply<MessageBody>)
    requires svc.Valid()
    modifies svc
    ensures svc.Valid() && svc.resets == old(svc.resets)
    ensures !configured ==> reply == Failure(501, "Google Auth not configured") && svc.users == old(svc.users)
    ensures configured && sso.SsoError? ==> reply == Failure(500, "Google Login Error: " + sso.message)
                                            && svc.users == old(svc.users)
    ensures reply.Redirect? ==> configured && sso.Profile? && Truthy(sso.email)
    ensures configured && sso.Profile? && !Truthy(sso.email) ==>
              reply == Failure(500, "Google Login Error: " + ExceptionText(400, GoogleFailure))
    ensures configured && sso.Profile? && !reply.Redirect? ==>
              reply == Failure(500, "Google Login Error: " + ExceptionText(400, GoogleFailure))
    ensures reply.Redirect? ==>
              exists u: UserRow :: u.isVerified && u.email == sso.email.value
                                   && reply == Redirect(CallbackUrl(frontendUrl, svc.deps.createAccessToken(u.id),
                                                                    UserJson(u, isoformat)))
  {
    if !configured {
      return Failure(501, "Google Auth not configured");
    }
    if sso.SsoError? {
      return Failure(500, "Google Login Error: " + sso.message);
    }
    var user := svc.GetOrCreateGoogleUser(GoogleInfo(sso.email, sso.displayName, None), now, newId, randomPassword, fault);
    reply := CallbackReplyAsWritten(user, svc.deps, frontendUrl, isoformat);
  }
}
