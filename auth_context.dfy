/** AuthProvider and useAuth: the signed-in user, kept in component state and
    mirrored to the 'user' and 'token' storage keys. */
module AuthContext {
  import opened Web
  import opened ApiTypes

  /** JSON.stringify of a user. */
  type UserEncoder = User -> string

  /** JSON.parse of a stored user: Err(message) when it throws, Ok(None) for `null`. */
  type UserDecoder = string -> Result<Option<User>, string>

  /** The context value: `isAuthenticated` is `!!user`. */
  datatype AuthValue = AuthValue(user: Option<User>, isAuthenticated: bool, loading: bool)

  /** The user the mount check leaves: the parsed stored user when a non-empty one
      is stored and parses, otherwise the user it started with. */
  function RestoredUser(storage: map<string, string>, decode: UserDecoder, current: Option<User>): (r: Option<User>)
    ensures "user" !in storage || storage["user"] == "" ==> r == current
    ensures "user" in storage && storage["user"] != "" && decode(storage["user"]).Err? ==> r == current
    ensures "user" in storage && storage["user"] != "" && decode(storage["user"]).Ok? ==> r == decode(storage["user"]).value
  {
    var stored := Lookup(storage, "user");
    if stored.Some? && stored.value != "" then
      match decode(stored.value)
      case Ok(u) => u
      case Err(_) => current
    else current
  }

  /** Storage after login: the user always, the token only when one is given. */
  function StorageAfterLogin(storage: map<string, string>, encodedUser: string, token: Option<string>): (r: map<string, string>)
    ensures Lookup(r, "user") == Some(encodedUser)
    ensures Lookup(r, "token") == if token.Some? && token.value != "" then token else Lookup(storage, "token")
    ensures forall k :: k != "user" && k != "token" ==> Lookup(r, k) == Lookup(storage, k)
  {
    var s := storage["user" := encodedUser];
    if token.Some? && token.value != "" then s["token" := token.value] else s
  }

  class AuthProvider {
    var user: Option<User>
    var loading: bool
    const browser: Browser
    const encode: UserEncoder
    const decode: UserDecoder

    constructor (browser: Browser, encode: UserEncoder, decode: UserDecoder)
      ensures this.browser == browser && this.encode == encode && this.decode == decode
      ensures user == None && loading
    {
      this.browser := browser;
      this.encode := encode;
      this.decode := decode;
      user := None;
      loading := true;
    }

    /** The value components read through useAuth. */
    function Value(): (v: AuthValue)
      reads this
      ensures v.user == user && v.loading == loading
      ensures v.isAuthenticated <==> user.Some?
    {
      AuthValue(user, user.Some?, loading)
    }

    /** The mount effect (checkAuthStatus): restore the stored user if it parses;
        loading ends false whether or not parsing fails. */
    method Mount()
      modifies this
      ensures user == RestoredUser(browser.storage, decode, old(user))
      ensures !loading
    {
      var stored := browser.GetItem("user");
      if stored.Some? && stored.value != "" {
        var parsed := decode(stored.value);
        if parsed.Ok? {
          user := parsed.value;
        }
      }
      loading := false;
    }

    method Login(userData: User, token: Option<string>)
      modifies this, browser`storage
      ensures user == Some(userData) && Value().isAuthenticated && loading == old(loading)
      ensures browser.storage == StorageAfterLogin(old(browser.storage), encode(userData), token)
    {
      user := Some(userData);
      browser.SetItem("user", encode(userData));
      if token.Some? && token.value != "" {
        browser.SetItem("token", token.value);
      }
    }

    method Logout()
      modifies this, browser`storage
      ensures user == None && !Value().isAuthenticated && loading == old(loading)
      ensures browser.storage == old(browser.storage) - {"user", "token"}
    {
      user := None;
      browser.RemoveItem("user");
      browser.RemoveItem("token");
    }
  }

  /** useAuth: the context value, or the error it throws outside a provider. */
  function UseAuth(context: Option<AuthValue>): (r: Result<AuthValue, string>)
    ensures r.Err? <==> context.None?
    ensures r.Ok? ==> r.value == context.value
  {
    if context.None? then Err("useAuth must be used within an AuthProvider") else Ok(context.value)
  }

  // ---------------------------------------------------------------------------
  // Properties

  /** A user stored by login is the one the next mount restores, given that
      parsing the stringified user gives it back. */
  lemma LoginThenMountRestoresUser(storage: map<string, string>, u: User, token: Option<string>,
                                   encode: UserEncoder, decode: UserDecoder, current: Option<User>)
    requires encode(u) != "" && decode(encode(u)) == Ok(Some(u))
    ensures RestoredUser(StorageAfterLogin(storage, encode(u), token), decode, current) == Some(u)
  {
  }

  /** Login without a token leaves the stored token as it was. */
  lemma LoginWithoutTokenKeepsToken(storage: map<string, string>, encodedUser: string)
    ensures Lookup(StorageAfterLogin(storage, encodedUser, None), "token") == Lookup(storage, "token")
  {
  }

  /** After logout neither key is stored, so the next mount restores no user. */
  lemma LogoutThenMountFindsNoUser(storage: map<string, string>, decode: UserDecoder)
    ensures Lookup(storage - {"user", "token"}, "token") == None
    ensures RestoredUser(storage - {"user", "token"}, decode, None) == None
  {
  }
}
