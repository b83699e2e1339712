/** The older front-end's `authService`: thin wrappers over the HTTP client, plus the
    `localStorage` bookkeeping of the session (`access_token`, `user`, `chat_session_id`). */
module LegacyAuthService {
  import opened Common
  import opened Storage
  import opened ApiClient

  /** `getCurrentUser()` on given storage contents: the parsed `user` entry, or null when it
      is absent, empty or not valid JSON. */
  function CurrentUser(items: map<string, string>, codec: JsonCodec): (u: Option<UserRecord>)
    ensures u.Some? ==> UserKey in items && codec.parse(items[UserKey]) == Value(u)
    ensures UserKey !in items || items[UserKey] == "" ==> u.None?
    ensures UserKey in items && items[UserKey] != "" ==>
              u == (if codec.parse(items[UserKey]).Value? then codec.parse(items[UserKey]).user else None)
  {
    if UserKey in items && items[UserKey] != "" then
      match codec.parse(items[UserKey])
      case Malformed => None
      case Value(u) => u
    else None
  }

  /** `isAuthenticated()` on given storage contents: a non-empty `access_token` is stored. */
  predicate HasToken(items: map<string, string>)
  {
    AccessTokenKey in items && items[AccessTokenKey] != ""
  }

  /** The storage a successful login leaves: the token written when the reply has a
      non-empty one, the serialised user when it has one, each independently. */
  function AfterLogin(items: map<string, string>, body: LoginReply, codec: JsonCodec): (r: map<string, string>)
    ensures r.Keys == items.Keys + (if Truthy(body.accessToken) then {AccessTokenKey} else {})
                                 + (if body.user.Some? then {UserKey} else {})
    ensures forall k :: k in items && k != AccessTokenKey && k != UserKey ==> r[k] == items[k]
    ensures Truthy(body.accessToken) ==> r[AccessTokenKey] == body.accessToken.value
    ensures !Truthy(body.accessToken) && AccessTokenKey in items ==> r[AccessTokenKey] == items[AccessTokenKey]
    ensures body.user.Some? ==> r[UserKey] == codec.stringify(body.user)
    ensures body.user.None? && UserKey in items ==> r[UserKey] == items[UserKey]
  {
    var withToken := if Truthy(body.accessToken) then items[AccessTokenKey := body.accessToken.value] else items;
    if body.user.Some? then withToken[UserKey := codec.stringify(body.user)] else withToken
  }

  /** The three keys a logout removes. */
  const SessionKeys := {AccessTokenKey, UserKey, ChatSessionKey}

  /** `login(email, password)`: the reply, or the transport error, reaches the caller
      unchanged; only a reply updates the storage. */
  method Login(store: BrowserStorage, codec: JsonCodec, reply: Reply<LoginReply>) returns (result: Reply<LoginReply>)
    modifies store
    ensures result == reply
    ensures store.items == (if reply.Received? then AfterLogin(old(store.items), reply.body, codec) else old(store.items))
  {
    if reply.Received? {
      if Truthy(reply.body.accessToken) {
        store.SetItem(AccessTokenKey, reply.body.accessToken.value);
      }
      if reply.body.user.Some? {
        store.SetItem(UserKey, codec.stringify(reply.body.user));
      }
    }
    result := reply;
  }

  /** `logout()`. */
  method Logout(store: BrowserStorage)
    modifies store
    ensures store.items == old(store.items) - SessionKeys
  {
    store.RemoveItem(AccessTokenKey);
    store.RemoveItem(UserKey);
    store.RemoveItem(ChatSessionKey);
  }

  method GetCurrentUser(store: BrowserStorage, codec: JsonCodec) returns (u: Option<UserRecord>)
    ensures u == CurrentUser(store.items, codec)
  {
    var userStr := store.GetItem(UserKey);
    if Truthy(userStr) {
      var parsed := codec.parse(userStr.value);
      u := if parsed.Malformed? then None else parsed.user;
    } else {
      u := None;
    }
  }

  method IsAuthenticated(store: BrowserStorage) returns (b: bool)
    ensures b <==> HasToken(store.items)
  {
    b := Truthy(store.GetItem(AccessTokenKey));
  }

  /** After a login whose reply carries a user, `getCurrentUser()` gives that user back; the
      token check holds exactly when the reply had a token or one was already stored. */
  lemma {:induction false} LoginThenRead(items: map<string, string>, body: LoginReply, codec: JsonCodec)
    requires SoundCodec(codec)
    ensures body.user.Some? ==> CurrentUser(AfterLogin(items, body, codec), codec) == body.user
    ensures HasToken(AfterLogin(items, body, codec)) <==> Truthy(body.accessToken) || HasToken(items)
  {
    var r := AfterLogin(items, body, codec);
    if body.user.Some? {
      StringifiedNonEmpty(codec, body.user);
      assert r[UserKey] == codec.stringify(body.user);
    }
    if Truthy(body.accessToken) {
      var withToken := items[AccessTokenKey := body.accessToken.value];
      assert r[AccessTokenKey] == withToken[AccessTokenKey];
    } else if HasToken(items) {
      assert r[AccessTokenKey] == items[AccessTokenKey];
    }
  }

  /** After a logout neither the user nor the token is found, whatever was stored. */
  lemma LogoutForgets(items: map<string, string>, codec: JsonCodec)
    ensures CurrentUser(items - SessionKeys, codec).None? && !HasToken(items - SessionKeys)
  {
  }
}
