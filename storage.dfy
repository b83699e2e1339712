/** Browser `localStorage` and the JSON text of the user record kept in it. */
module Storage {
  import opened Common

  /** Keys of the newer front-end (`unified_api_frontend_v2`). */
  const AuthTokenKey := "auth_token"
  const UserKey := "user"
  /** Keys of the older front-end (`front-end`). */
  const AccessTokenKey := "access_token"
  const ChatSessionKey := "chat_session_id"

  /** The user record the back-end returns (`UserResponse`). */
  datatype UserRecord = UserRecord(id: string, email: string, fullName: Option<string>,
                                   isActive: bool, createdAt: string)

  /** What `JSON.parse` gives for the stored text: it throws (`Malformed`), or yields `null`
      (`Value(None)`) or a user object (`Value(Some(u))`). */
  datatype ParseResult = Malformed | Value(user: Option<UserRecord>)

  /** `JSON.parse` and `JSON.stringify` restricted to user records. */
  datatype JsonCodec = JsonCodec(parse: string -> ParseResult, stringify: Option<UserRecord> -> string)

  /** What the model assumes of the JSON library: parsing what was stringified gives the same
      value back, and the empty text does not parse. */
  ghost predicate SoundCodec(c: JsonCodec)
  {
    && c.parse("") == Malformed
    && forall u :: c.parse(c.stringify(u)) == Value(u)
  }

  lemma {:induction false} StringifiedNonEmpty(c: JsonCodec, u: Option<UserRecord>)
    requires SoundCodec(c)
    ensures c.stringify(u) != ""
  {
    assert c.parse(c.stringify(u)) == Value(u) != c.parse("");
  }

  /** `window.localStorage`: one string-to-string map shared by every component of the page. */
  class BrowserStorage {
    var items: map<string, string>

    constructor (initial: map<string, string>)
      ensures items == initial
    {
      items := initial;
    }

    function GetItem(key: string): (v: Option<string>)
      reads this
      ensures v.Some? <==> key in items
      ensures v.Some? ==> v.value == items[key]
    {
      if key in items then Some(items[key]) else None
    }

    method SetItem(key: string, value: string)
      modifies this
      ensures items == old(items)[key := value]
    {
      items := items[key := value];
    }

    method RemoveItem(key: string)
      modifies this
      ensures items == old(items) - {key}
    {
      items := items - {key};
    }
  }
}
