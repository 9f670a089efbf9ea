/**
 * The client-side session (`context/AuthContext.tsx`): the signed-in user and token kept in
 * React state and mirrored in `localStorage` under two keys. `localStorage` is the string map
 * `storage`; `JSON.stringify` and `JSON.parse` are the `stringify` and `parse` parameters,
 * `parse` answering `None` where `JSON.parse` throws or yields something that is not an
 * object. `parse` gives each user field as text that is empty exactly when the field's JSON
 * value is falsy (missing, `null`, `""`, `0` or `false`), and otherwise non-empty: the numeric
 * id the login route sends, say `7`, reads as `"7"`. So `Complete` agrees with the source's
 * `!user?.id || !user?.name || !user?.email` test. Whether the code runs in a browser
 * (`typeof window !== 'undefined'`) is fixed when the provider is created.
 */
module AuthContext {
  import opened Wrappers

  const TokenKey: string := "floodsense_token"
  const UserKey: string := "floodsense_user"

  datatype AuthUser = AuthUser(id: string, name: string, email: string)

  /** A session as `loadStoredAuth` returns it: both present, or both `null`. */
  datatype Stored = Stored(user: Option<AuthUser>, token: Option<string>)

  const NoSession: Stored := Stored(None, None)

  /** `!user?.id || !user?.name || !user?.email` fails on none of the three. */
  predicate Complete(u: AuthUser) {
    u.id != "" && u.name != "" && u.email != ""
  }

  /** `storage.getItem(key)`, `None` standing for `null`. */
  function GetItem(storage: map<string, string>, key: string): Option<string> {
    if key in storage then Some(storage[key]) else None
  }

  /** `loadStoredAuth` in a browser: both entries non-empty and a user with all three fields, or no session. */
  function LoadStoredAuth(storage: map<string, string>, parse: string -> Option<AuthUser>): (r: Stored)
    ensures r == NoSession || (r.user.Some? && r.token.Some?)
    ensures r != NoSession <==>
      && TokenKey in storage && storage[TokenKey] != ""
      && UserKey in storage && storage[UserKey] != ""
      && parse(storage[UserKey]).Some? && Complete(parse(storage[UserKey]).value)
    ensures r != NoSession ==> r.token == Some(storage[TokenKey]) && r.user == parse(storage[UserKey])
  {
    var token := GetItem(storage, TokenKey);
    var userJson := GetItem(storage, UserKey);
    if token.None? || token.value == "" || userJson.None? || userJson.value == "" then NoSession
    else match parse(userJson.value)
      case None => NoSession
      case Some(u) => if !Complete(u) then NoSession else Stored(Some(u), token)
  }

  /** `persistAuth`'s two `setItem` calls. */
  function Persist(storage: map<string, string>, user: AuthUser, token: string, stringify: AuthUser -> string): (s: map<string, string>)
    ensures s.Keys == storage.Keys + {TokenKey, UserKey}
    ensures s[TokenKey] == token && s[UserKey] == stringify(user)
    ensures forall k | k in storage && k != TokenKey && k != UserKey :: s[k] == storage[k]
  {
    storage[TokenKey := token][UserKey := stringify(user)]
  }

  /** `clearStoredAuth`'s two `removeItem` calls. */
  function Clear(storage: map<string, string>): (s: map<string, string>)
    ensures s.Keys == storage.Keys - {TokenKey, UserKey}
    ensures forall k | k in s :: s[k] == storage[k]
  {
    storage - {TokenKey, UserKey}
  }

  /**
   * The round trip: a non-empty token and a user with all three fields, persisted, are what
   * the next hydration loads, provided `JSON.parse` undoes `JSON.stringify` on users.
   */
  lemma PersistThenLoad(storage: map<string, string>, user: AuthUser, token: string,
                        stringify: AuthUser -> string, parse: string -> Option<AuthUser>)
    requires token != "" && Complete(user)
    requires parse(stringify(user)) == Some(user) && stringify(user) != ""
    ensures LoadStoredAuth(Persist(storage, user, token, stringify), parse) == Stored(Some(user), Some(token))
  {
  }

  /** A token or a user persisted empty, or with a field missing, hydrates as no session. */
  lemma IncompleteLoadsNothing(storage: map<string, string>, user: AuthUser, token: string,
                               stringify: AuthUser -> string, parse: string -> Option<AuthUser>)
    requires parse(stringify(user)) == Some(user)
    requires token == "" || !Complete(user)
    ensures LoadStoredAuth(Persist(storage, user, token, stringify), parse) == NoSession
  {
  }

  /** After a clear nothing is loaded, whatever else the storage holds. */
  lemma ClearThenLoad(storage: map<string, string>, parse: string -> Option<AuthUser>)
    ensures LoadStoredAuth(Clear(storage), parse) == NoSession
  {
  }

  /** The provider's state and the storage it mirrors. */
  class AuthProvider {
    const inBrowser: bool
    var storage: map<string, string>
    var user: Option<AuthUser>
    var token: Option<string>
    var isLoading: bool

    /** `useState({ user: null, token: null, isLoading: true })` over the browser's current storage. */
    constructor(inBrowser: bool, storage: map<string, string>)
      ensures this.inBrowser == inBrowser && this.storage == storage
      ensures user.None? && token.None? && isLoading
    {
      this.inBrowser := inBrowser;
      this.storage := storage;
      user, token, isLoading := None, None, true;
    }

    /** `isAuthenticated`: `!!state.user && !!state.token`. */
    predicate IsAuthenticated()
      reads this
    {
      user.Some? && token.Some? && token.value != ""
    }

    /** The mount effect's `hydrate`, queued only in a browser: the state becomes what is stored. */
    method Hydrate(parse: string -> Option<AuthUser>)
      requires inBrowser
      modifies this`user, this`token, this`isLoading
      ensures Stored(user, token) == LoadStoredAuth(storage, parse) && !isLoading
    {
      var s := LoadStoredAuth(storage, parse);
      user, token, isLoading := s.user, s.token, false;
    }

    /** `login`: persist (nothing outside a browser), then set the state. */
    method Login(u: AuthUser, t: string, stringify: AuthUser -> string)
      modifies this`storage, this`user, this`token, this`isLoading
      ensures storage == if inBrowser then Persist(old(storage), u, t, stringify) else old(storage)
      ensures user == Some(u) && token == Some(t) && !isLoading
    {
      if inBrowser {
        storage := Persist(storage, u, t, stringify);
      }
      user, token, isLoading := Some(u), Some(t), false;
    }

    /** `logout`: clear (nothing outside a browser), then reset the state. */
    method Logout()
      modifies this`storage, this`user, this`token, this`isLoading
      ensures storage == if inBrowser then Clear(old(storage)) else old(storage)
      ensures user.None? && token.None? && !isLoading && !IsAuthenticated()
    {
      if inBrowser {
        storage := Clear(storage);
      }
      user, token, isLoading := None, None, false;
    }
  }

  /** A hydrated session is authenticated exactly when a session was stored. */
  lemma HydratedAuthenticatedIff(storage: map<string, string>, parse: string -> Option<AuthUser>)
    ensures var s := LoadStoredAuth(storage, parse);
      (s.user.Some? && s.token.Some? && s.token.value != "") <==> s != NoSession
  {
  }

  /** In a browser, a login followed by a fresh hydration restores the same session. */
  method LoginSurvivesReload(storage: map<string, string>, u: AuthUser, t: string,
                             stringify: AuthUser -> string, parse: string -> Option<AuthUser>)
    returns (before: Stored, after: Stored)
    requires t != "" && Complete(u) && parse(stringify(u)) == Some(u) && stringify(u) != ""
    ensures before == after == Stored(Some(u), Some(t))
  {
    var tab := new AuthProvider(true, storage);
    tab.Login(u, t, stringify);
    before := Stored(tab.user, tab.token);
    var reloaded := new AuthProvider(true, tab.storage);
    reloaded.Hydrate(parse);
    PersistThenLoad(storage, u, t, stringify, parse);
    after := Stored(reloaded.user, reloaded.token);
  }
}
