/** Properties that span the back-end and the front-end: the Google callback redirect as
    the newer front-end's landing page reads it. */
module EndToEnd {
  import opened Common
  import opened Storage
  import opened Uri
  import opened OAuthCallback
  import AccountService
  import AuthRoutes

  lemma CallbackParams(token: string, json: string)
    ensures var params := [("token", token), ("user", json)];
            GetParam(params, "error") == None && GetParam(params, "token") == Some(token)
            && GetParam(params, "user") == Some(json)
  {
    var params := [("token", token), ("user", json)];
    assert params[1..] == [("user", json)];
    assert params[1..][1..] == [];
    assert "token" != "error" && "user" != "error" && "token" != "user";
  }

  /** Decoding the user parameter once, as the back-end's encoding calls for: every
      redirect whose user JSON parses logs the user in with the token and that user. */
  lemma CallbackLogsIn(token: string, json: string, codec: JsonCodec)
    requires SafeToken(token) && IsAscii(json) && json != ""
    requires codec.parse(json).Value?
    ensures HandleCallback(AuthRoutes.CallbackQuery(token, json), codec, DecodeOnce)
            == Outcome(Some(Credentials(codec.parse(json).user, token)), DashboardPage)
  {
    CallbackParams(token, json);
  }

  /** The first `%` of `json` is at `k` and is not followed by a hex digit. */
  predicate BareEscapeAt(json: string, k: nat)
  {
    && k < |json| && json[k] == '%' && '%' !in json[..k]
    && (k + 1 == |json| || !IsHexDigit(json[k + 1]))
  }

  /** A `%` not followed by two hex digits makes the second decoding throw. */
  lemma BareEscapeRejected(json: string, k: nat)
    requires BareEscapeAt(json, k)
    ensures UserText(json, DecodeTwice) == None
  {
    assert json == json[..k] + "%" + json[k + 1..];
    DecodeRejectsBareEscape(json[..k], json[k + 1..]);
    assert json[k] in json;
  }

  /** A redirect whose user text cannot be decoded sends the user back to the login page. */
  lemma UndecodableUserRejected(token: string, json: string, codec: JsonCodec, decoding: UserDecoding)
    requires SafeToken(token) && IsAscii(json)
    requires UserText(json, decoding) == None
    ensures HandleCallback(AuthRoutes.CallbackQuery(token, json), codec, decoding) == Outcome(None, LoginPage)
  {
    CallbackParams(token, json);
  }

  /** Decoding it a second time, as the page is written: a user JSON holding a `%` that is
      not followed by two hex digits makes `decodeURIComponent` throw, and the user is sent
      back to the login page although the back-end signed them in. */
  lemma DoubleDecodingRejects(token: string, json: string, codec: JsonCodec, k: nat)
    requires SafeToken(token) && IsAscii(json) && BareEscapeAt(json, k)
    ensures HandleCallback(AuthRoutes.CallbackQuery(token, json), codec, DecodeTwice) == Outcome(None, LoginPage)
  {
    BareEscapeRejected(json, k);
    UndecodableUserRejected(token, json, codec, DecodeTwice);
  }

  /** Text of printable ASCII other than quote, backslash and `%`. */
  predicate PlainText(s: string)
  {
    forall i :: 0 <= i < |s| ==> AuthRoutes.JsonPlain(s[i]) && s[i] != '%'
  }

  const PercentName := "50% off"

  /** The user JSON up to the name's value. */
  function JsonHead(u: AccountService.UserRow): string
  {
    AuthRoutes.IdKey + AuthRoutes.JsonString(u.id) + AuthRoutes.EmailKey + AuthRoutes.JsonString(u.email)
    + AuthRoutes.NameKey
  }

  /** The user JSON after the name's value. */
  function JsonTail(u: AccountService.UserRow, isoformat: int -> string): string
  {
    AuthRoutes.ActiveKey + (if u.isActive then "true" else "false")
    + AuthRoutes.CreatedKey + AuthRoutes.JsonString(isoformat(u.createdAt)) + "}"
  }

  /** `UserJson` as the nested fields it is built from. */
  lemma JsonFields(u: AccountService.UserRow, isoformat: int -> string)
    requires u.fullName.Some?
    ensures AuthRoutes.UserJson(u, isoformat)
            == (((((AuthRoutes.IdKey + AuthRoutes.JsonString(u.id))
                   + (AuthRoutes.EmailKey + AuthRoutes.JsonString(u.email)))
                  + (AuthRoutes.NameKey + AuthRoutes.JsonString(u.fullName.value)))
                 + (AuthRoutes.ActiveKey + (if u.isActive then "true" else "false")))
                + (AuthRoutes.CreatedKey + AuthRoutes.JsonString(isoformat(u.createdAt))))
               + "}"
  {
    AuthRoutes.KeysAscii();
  }

  lemma Regroup(a: string, b: string, c: string, d: string, e: string, f: string, g: string, h: string,
                i: string, j: string, k: string)
    ensures (((((a + b) + (c + d)) + (e + f)) + (g + h)) + (i + j)) + k == (a + b + c + d + e) + f + (g + h + i + j + k)
  {
  }

  lemma JsonShape(u: AccountService.UserRow, isoformat: int -> string)
    requires u.fullName.Some?
    ensures AuthRoutes.UserJson(u, isoformat) == JsonHead(u) + AuthRoutes.JsonString(u.fullName.value) + JsonTail(u, isoformat)
  {
    JsonFields(u, isoformat);
    Regroup(AuthRoutes.IdKey, AuthRoutes.JsonString(u.id), AuthRoutes.EmailKey, AuthRoutes.JsonString(u.email),
            AuthRoutes.NameKey, AuthRoutes.JsonString(u.fullName.value),
            AuthRoutes.ActiveKey, if u.isActive then "true" else "false",
            AuthRoutes.CreatedKey, AuthRoutes.JsonString(isoformat(u.createdAt)), "}");
  }

  lemma PlainString(t: string)
    requires PlainText(t)
    ensures AuthRoutes.JsonString(t) == "\"" + t + "\"" && '%' !in AuthRoutes.JsonString(t)
  {
    AuthRoutes.JsonCharsPlain(t);
    assert forall i :: 0 <= i < |t| ==> t[i] != '%';
  }

  lemma HeadPlain(u: AccountService.UserRow)
    requires PlainText(u.id) && PlainText(u.email)
    ensures '%' !in JsonHead(u)
  {
    PlainString(u.id);
    PlainString(u.email);
    assert '%' !in AuthRoutes.IdKey && '%' !in AuthRoutes.EmailKey && '%' !in AuthRoutes.NameKey;
  }

  /** Text of characters `json.dumps` writes as themselves is written between quotes. */
  lemma QuotedPlain(t: string)
    requires PlainName(t)
    ensures AuthRoutes.JsonString(t) == "\"" + t + "\""
  {
    AuthRoutes.JsonCharsPlain(t);
  }

  /** A name `json.dumps` writes as itself. */
  predicate PlainName(n: string)
  {
    forall i :: 0 <= i < |n| ==> AuthRoutes.JsonPlain(n[i])
  }

  /** "50% off" is such a name, and its `%` is not followed by a hex digit. */
  lemma PercentNameEscapes()
    ensures PlainName(PercentName) && BareEscapeAt(PercentName, 2)
  {
    forall i | 0 <= i < |PercentName| ensures AuthRoutes.JsonPlain(PercentName[i]) {
    }
    assert PercentName[..2] == "50";
    assert !IsHexDigit(PercentName[3]);
  }

  /** A bare `%` in a plain name is still the first `%`, and still bare, in JSON text
      around it whose head holds no `%`. */
  lemma NameEscapeInJson(head: string, n: string, tail: string, k: nat)
    requires '%' !in head && PlainName(n) && BareEscapeAt(n, k)
    ensures BareEscapeAt(head + AuthRoutes.JsonString(n) + tail, |head| + 1 + k)
  {
    QuotedPlain(n);
    var json := head + ("\"" + n + "\"") + tail;
    var j := |head| + 1 + k;
    assert json[j] == n[k];
    assert json[..j] == head + "\"" + n[..k];
    if k + 1 < |n| {
      assert json[j + 1] == n[k + 1];
    } else {
      assert json[j + 1] == '"' && !IsHexDigit('"');
    }
  }

  /** A callback whose user JSON holds a plain name with a bare `%`, after a head holding no
      `%`, is sent back to the login page when decoded twice. */
  lemma NameEscapeRejected(token: string, json: string, head: string, n: string, tail: string,
                           codec: JsonCodec, k: nat)
    requires json == head + AuthRoutes.JsonString(n) + tail && IsAscii(json)
    requires '%' !in head && PlainName(n) && BareEscapeAt(n, k) && SafeToken(token)
    ensures HandleCallback(AuthRoutes.CallbackQuery(token, json), codec, DecodeTwice) == Outcome(None, LoginPage)
  {
    NameEscapeInJson(head, n, tail, k);
    DoubleDecodingRejects(token, json, codec, |head| + 1 + k);
  }

  /** Such a Google user (with a plain id and e-mail) is sent back to the login page when
      their callback is decoded twice. */
  lemma EscapedNameRejected(u: AccountService.UserRow, isoformat: int -> string, token: string,
                            codec: JsonCodec, k: nat)
    requires u.fullName.Some? && PlainName(u.fullName.value) && BareEscapeAt(u.fullName.value, k)
    requires PlainText(u.id) && PlainText(u.email) && SafeToken(token)
    ensures HandleCallback(AuthRoutes.CallbackQuery(token, AuthRoutes.UserJson(u, isoformat)), codec, DecodeTwice)
            == Outcome(None, LoginPage)
  {
    JsonShape(u, isoformat);
    HeadPlain(u);
    NameEscapeRejected(token, AuthRoutes.UserJson(u, isoformat), JsonHead(u), u.fullName.value,
                       JsonTail(u, isoformat), codec, k);
  }

  /** The finding end to end: a Google user whose name is plain but holds a `%` not
      followed by two hex digits (such as "50% off", see PercentNameEscapes) signs in, the
      back-end redirects with their token and JSON, and the page as written sends them
      back to the login page, while decoding once would log them in. */
  lemma EscapedNameCannotSignIn(u: AccountService.UserRow, isoformat: int -> string, token: string,
                                codec: JsonCodec, k: nat)
    requires u.fullName.Some? && PlainName(u.fullName.value) && BareEscapeAt(u.fullName.value, k)
    requires PlainText(u.id) && PlainText(u.email) && SafeToken(token)
    requires codec.parse(AuthRoutes.UserJson(u, isoformat)).Value?
    ensures var search := AuthRoutes.CallbackQuery(token, AuthRoutes.UserJson(u, isoformat));
            && HandleCallback(search, codec, DecodeTwice) == Outcome(None, LoginPage)
            && HandleCallback(search, codec, DecodeOnce).navigateTo == DashboardPage
  {
    EscapedNameRejected(u, isoformat, token, codec, k);
    CallbackLogsIn(token, AuthRoutes.UserJson(u, isoformat), codec);
  }
}
