/** The older front-end's Google landing page: it writes the credentials from the query
    string straight into `localStorage` and reloads the chat page, without going through
    the authentication context. */
module GoogleCallback {
  import opened Common
  import opened Storage
  import opened Uri
  import opened OAuthCallback

  /** A client-side navigation, or a full-page load scheduled after a delay. */
  datatype Navigation = Navigate(path: string) | HardRedirect(path: string, delayMs: nat)

  const FailurePage := "/login?error=google_auth_failed"
  const ChatPage := "/chat"

  /** The page's effect. Without usable credentials it navigates to the failure page and
      leaves the storage alone (the parse comes before the writes); with them it stores the
      token under `access_token` and the re-serialised user under `user`, then schedules a
      reload of the chat page after 100 ms. */
  method HandleCallback(search: string, store: BrowserStorage, codec: JsonCodec, decoding: UserDecoding)
    returns (nav: Navigation)
    modifies store
    ensures CallbackCredentials(ParseQuery(search), codec, decoding).None? ==>
              nav == Navigate(FailurePage) && store.items == old(store.items)
    ensures CallbackCredentials(ParseQuery(search), codec, decoding).Some? ==>
              var c := CallbackCredentials(ParseQuery(search), codec, decoding).value;
              && nav == HardRedirect(ChatPage, 100)
              && store.items == old(store.items)[AccessTokenKey := c.token][UserKey := codec.stringify(c.user)]
  {
    var params := ParseQuery(search);
    var token := GetParam(params, "token");
    var userStr := GetParam(params, "user");
    if Truthy(token) && Truthy(userStr) {
      var text := UserText(userStr.value, decoding);
      if text.None? {
        return Navigate(FailurePage);
      }
      var parsed := codec.parse(text.value);
      if parsed.Malformed? {
        return Navigate(FailurePage);
      }
      store.SetItem(AccessTokenKey, token.value);
      store.SetItem(UserKey, codec.stringify(parsed.user));
      nav := HardRedirect(ChatPage, 100);
    } else {
      nav := Navigate(FailurePage);
    }
  }
}
