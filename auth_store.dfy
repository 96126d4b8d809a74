/** The zustand session store of src/store/authStore.ts: the logged-in user,
    the bearer token and the flag derived from it, mirrored into the browser's
    localStorage under the keys "auth_token" and "user". */
module AuthStore {
  import opened Common
  import opened Types

  const TokenKey := "auth_token"
  const UserKey := "user"

  /** `localStorage`: a string-to-string store shared by the whole page. */
  class LocalStorage {
    var items: map<string, string>

    constructor (initial: map<string, string>)
      ensures items == initial
    {
      items := initial;
    }

    /** `getItem`: the stored string, or null when the key is absent. */
    method GetItem(key: string) returns (v: Option<string>)
      ensures v == Get(items, key)
    {
      v := if key in items then Some(items[key]) else None;
    }

    /** `setItem`: stores `value` under `key`, leaving every other key alone. */
    method SetItem(key: string, value: string)
      modifies this
      ensures items == old(items)[key := value]
    {
      items := items[key := value];
    }

    /** `removeItem`: forgets `key`, leaving every other key alone. */
    method RemoveItem(key: string)
      modifies this
      ensures items == old(items) - {key}
    {
      items := items - {key};
    }
  }

  /** `initializeUser`: the stored user string, parsed. A missing or empty
      string gives null without parsing; a string `JSON.parse` rejects gives
      null too. `parse` stands for `JSON.parse`, with `None` for a throw. */
  function InitializeUser(items: map<string, string>, parse: string -> Option<User>): (u: Option<User>)
    ensures UserKey !in items ==> u == None
    ensures u.Some? ==> UserKey in items && items[UserKey] != "" && parse(items[UserKey]) == u
    ensures UserKey in items && items[UserKey] != "" ==> u == parse(items[UserKey])
  {
    var stored := Get(items, UserKey);
    if TruthyString(stored) then parse(stored.value) else None
  }

  /** The three observable fields of the store. */
  datatype Session = Session(user: Option<User>, token: Option<string>, isAuthenticated: bool)

  const LoggedOut := Session(None, None, false)

  /** The invariant every transition keeps: the flag never claims a login without a token. */
  predicate Consistent(s: Session) {
    s.isAuthenticated ==> s.token.Some?
  }

  /** The state the store is created in, read from storage at page load. */
  function InitialSession(items: map<string, string>, parse: string -> Option<User>): (s: Session)
    ensures s.token == Get(items, TokenKey)
    ensures s.isAuthenticated <==> TokenKey in items && items[TokenKey] != ""
    ensures s.user == InitializeUser(items, parse)
    ensures Consistent(s)
  {
    var token := Get(items, TokenKey);
    Session(InitializeUser(items, parse), token, TruthyString(token))
  }

  /** The storage after `setAuth(user, token)`; `stringify` stands for `JSON.stringify`. */
  function StoreAuth(items: map<string, string>, user: User, token: string, stringify: User -> string): (r: map<string, string>)
    ensures Get(r, TokenKey) == Some(token) && Get(r, UserKey) == Some(stringify(user))
    ensures forall k :: k != TokenKey && k != UserKey ==> Get(r, k) == Get(items, k)
  {
    items[TokenKey := token][UserKey := stringify(user)]
  }

  /** The storage after `clearAuth()`. */
  function ForgetAuth(items: map<string, string>): (r: map<string, string>)
    ensures Get(r, TokenKey) == None && Get(r, UserKey) == None
    ensures forall k :: k != TokenKey && k != UserKey ==> Get(r, k) == Get(items, k)
  {
    items - {TokenKey} - {UserKey}
  }

  /** `setAuth` writes exactly the two session keys. */
  lemma StoreAuthFrame(items: map<string, string>, user: User, token: string, stringify: User -> string)
    ensures StoreAuth(items, user, token, stringify).Keys == items.Keys + {TokenKey, UserKey}
    ensures StoreAuth(items, user, token, stringify)[TokenKey] == token
    ensures StoreAuth(items, user, token, stringify)[UserKey] == stringify(user)
    ensures forall k :: k in items && k != TokenKey && k != UserKey ==>
      StoreAuth(items, user, token, stringify)[k] == items[k]
  {
  }

  /** `clearAuth` removes exactly the two session keys, and doing it twice is doing it once. */
  lemma ForgetAuthFrame(items: map<string, string>)
    ensures ForgetAuth(items).Keys == items.Keys - {TokenKey, UserKey}
    ensures forall k :: k in ForgetAuth(items) ==> ForgetAuth(items)[k] == items[k]
    ensures ForgetAuth(ForgetAuth(items)) == ForgetAuth(items)
  {
  }

  /** A page reload after `setAuth` restores the same user and token, provided
      `JSON.parse` inverts `JSON.stringify` on users and the serialised user is
      non-empty. The flag is restored only for a non-empty token: `setAuth(u, "")`
      sets it, but a reload reads the empty token as logged out. */
  lemma ReloadAfterSetAuth(items: map<string, string>, user: User, token: string,
                           stringify: User -> string, parse: string -> Option<User>)
    requires parse(stringify(user)) == Some(user)
    requires stringify(user) != ""
    ensures InitialSession(StoreAuth(items, user, token, stringify), parse)
         == Session(Some(user), Some(token), token != "")
  {
    var after := StoreAuth(items, user, token, stringify);
    StoreAuthFrame(items, user, token, stringify);
    assert InitializeUser(after, parse) == Some(user);
  }

  /** A page reload after `clearAuth` starts logged out, whatever was stored before. */
  lemma ReloadAfterClearAuth(items: map<string, string>, parse: string -> Option<User>)
    ensures InitialSession(ForgetAuth(items), parse) == LoggedOut
  {
    ForgetAuthFrame(items);
  }

  /** The store object. Its storage is the page-wide localStorage, held by reference. */
  class AuthState {
    var user: Option<User>
    var token: Option<string>
    var isAuthenticated: bool
    const storage: LocalStorage

    function Current(): Session
      reads this
    {
      Session(user, token, isAuthenticated)
    }

    ghost predicate Valid()
      reads this
    {
      Consistent(Current())
    }

    /** `create(...)`: the initial state is read from storage. */
    constructor (storage: LocalStorage, parse: string -> Option<User>)
      ensures this.storage == storage
      ensures Current() == InitialSession(storage.items, parse)
      ensures Valid()
    {
      this.storage := storage;
      var storedUser := storage.GetItem(UserKey);
      user := if TruthyString(storedUser) then parse(storedUser.value) else None;
      var storedToken := storage.GetItem(TokenKey);
      token := storedToken;
      var again := storage.GetItem(TokenKey);
      isAuthenticated := TruthyString(again);
    }

    /** `setAuth(user, token)`: persists both keys, then logs in. */
    method SetAuth(u: User, t: string, stringify: User -> string)
      modifies this, storage
      ensures storage.items == StoreAuth(old(storage.items), u, t, stringify)
      ensures Current() == Session(Some(u), Some(t), true)
      ensures Valid()
    {
      storage.SetItem(TokenKey, t);
      storage.SetItem(UserKey, stringify(u));
      user, token, isAuthenticated := Some(u), Some(t), true;
    }

    /** `clearAuth()`: removes both keys, then logs out, from any state. */
    method ClearAuth()
      modifies this, storage
      ensures storage.items == ForgetAuth(old(storage.items))
      ensures Current() == LoggedOut
      ensures Valid()
    {
      storage.RemoveItem(TokenKey);
      storage.RemoveItem(UserKey);
      user, token, isAuthenticated := None, None, false;
    }
  }
}
