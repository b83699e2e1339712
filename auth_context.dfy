/** The newer front-end's authentication context: the signed-in user, the bearer token and
    the loading flag, initialised once from `localStorage`. Whether the user is
    authenticated is derived from the user and the token, never stored. */
module AuthContext {
  import opened Common
  import opened Storage

  /** `!!token && !!user`. */
  predicate Authenticated(user: Option<UserRecord>, token: Option<string>)
  {
    Truthy(token) && user.Some?
  }

  /** What the initialisation effect leaves behind: the context's user and token, and the
      storage contents. */
  datatype Restored = Restored(user: Option<UserRecord>, token: Option<string>, items: map<string, string>)

  /** The initialisation effect, run on a fresh context over the given storage contents. The
      stored state is adopted only when both keys hold a non-empty value. A stored user that
      does not parse removes both keys; the token was already taken over, but the user stays
      null, so the context is not authenticated. */
  function Restore(items: map<string, string>, codec: JsonCodec): (r: Restored)
    ensures r.token.Some? ==> AuthTokenKey in items && UserKey in items
                              && items[AuthTokenKey] != "" && items[UserKey] != ""
                              && r.token.value == items[AuthTokenKey]
    ensures Authenticated(r.user, r.token) <==>
              && AuthTokenKey in items && items[AuthTokenKey] != "" && UserKey in items && items[UserKey] != ""
              && codec.parse(items[UserKey]).Value? && codec.parse(items[UserKey]).user.Some?
    ensures r.items == items || (UserKey in items && r.items == items - {AuthTokenKey, UserKey}
                                 && codec.parse(items[UserKey]).Malformed?)
    ensures !(AuthTokenKey in items && items[AuthTokenKey] != "" && UserKey in items && items[UserKey] != "") ==>
              r.user.None? && r.token.None? && r.items == items
    ensures AuthTokenKey in items && items[AuthTokenKey] != "" && UserKey in items && items[UserKey] != ""
            && codec.parse(items[UserKey]).Malformed? ==>
              r.user.None? && r.token == Some(items[AuthTokenKey]) && r.items == items - {AuthTokenKey, UserKey}
    ensures AuthTokenKey in items && items[AuthTokenKey] != "" && UserKey in items && items[UserKey] != ""
            && codec.parse(items[UserKey]).Value? ==>
              r.user == codec.parse(items[UserKey]).user && r.token == Some(items[AuthTokenKey]) && r.items == items
  {
    var storedToken := if AuthTokenKey in items then Some(items[AuthTokenKey]) else None;
    var storedUser := if UserKey in items then Some(items[UserKey]) else None;
    if Truthy(storedToken) && Truthy(storedUser) then
      match codec.parse(storedUser.value)
      case Malformed => Restored(None, storedToken, items - {AuthTokenKey, UserKey})
      case Value(u) => Restored(u, storedToken, items)
    else
      Restored(None, None, items)
  }

  /** After a login, a later initialisation (a reload) restores the same user and token. */
  lemma {:induction false} LoginSurvivesReload(items: map<string, string>, codec: JsonCodec,
                                               user: Option<UserRecord>, token: string)
    requires SoundCodec(codec) && token != ""
    ensures var after := items[AuthTokenKey := token][UserKey := codec.stringify(user)];
            Restore(after, codec) == Restored(user, Some(token), after)
  {
    StringifiedNonEmpty(codec, user);
    var after := items[AuthTokenKey := token][UserKey := codec.stringify(user)];
    assert after[AuthTokenKey] == token && after[UserKey] == codec.stringify(user);
  }

  /** Once both keys are gone (after a logout, or after the API client's forced logout on a
      401), a later initialisation adopts nothing. */
  lemma ClearedStorageRestoresNothing(items: map<string, string>, codec: JsonCodec)
    ensures var r := Restore(items - {AuthTokenKey, UserKey}, codec);
            r.user.None? && r.token.None? && !Authenticated(r.user, r.token)
  {
  }

  class AuthProvider {
    var user: Option<UserRecord>
    var token: Option<string>
    var isLoading: bool
    const store: BrowserStorage
    const codec: JsonCodec

    constructor (store: BrowserStorage, codec: JsonCodec)
      ensures this.store == store && this.codec == codec
      ensures user.None? && token.None? && isLoading
    {
      this.store, this.codec := store, codec;
      user, token, isLoading := None, None, true;
    }

    /** The derived `isAuthenticated` the context hands to its consumers. */
    function IsAuthenticated(): (b: bool)
      reads this
      ensures b <==> token.Some? && token.value != "" && user.Some?
    {
      Authenticated(user, token)
    }

    /** The initialisation effect, which React runs once, while the context is loading. It
        ends the loading state whatever the storage held. */
    method Initialize()
      requires isLoading && user.None? && token.None?
      modifies this, store
      ensures !isLoading
      ensures Restored(user, token, store.items) == Restore(old(store.items), codec)
    {
      var storedToken := store.GetItem(AuthTokenKey);
      var storedUser := store.GetItem(UserKey);
      if Truthy(storedToken) && Truthy(storedUser) {
        token := storedToken;
        var parsed := codec.parse(storedUser.value);
        if parsed.Malformed? {
          store.RemoveItem(AuthTokenKey);
          store.RemoveItem(UserKey);
        } else {
          user := parsed.user;
        }
      }
      isLoading := false;
    }

    /** `login(userData, authToken)`: afterwards the context is authenticated exactly when
        the token is non-empty and the user is not null, and the storage holds both. */
    method Login(userData: Option<UserRecord>, authToken: string)
      modifies this, store
      ensures user == userData && token == Some(authToken) && isLoading == old(isLoading)
      ensures IsAuthenticated() <==> authToken != "" && userData.Some?
      ensures store.items == old(store.items)[AuthTokenKey := authToken][UserKey := codec.stringify(userData)]
    {
      user := userData;
      token := Some(authToken);
      store.SetItem(AuthTokenKey, authToken);
      store.SetItem(UserKey, codec.stringify(userData));
    }

    /** `logout()`: both fields null and both keys removed. */
    method Logout()
      modifies this, store
      ensures user.None? && token.None? && !IsAuthenticated() && isLoading == old(isLoading)
      ensures store.items == old(store.items) - {AuthTokenKey, UserKey}
    {
      user := None;
      token := None;
      store.RemoveItem(AuthTokenKey);
      store.RemoveItem(UserKey);
    }

    /** The `setUser` setter the context exposes. */
    method SetUser(u: Option<UserRecord>)
      modifies this`user
      ensures user == u
    {
      user := u;
    }
  }
}
