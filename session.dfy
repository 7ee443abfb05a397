/**
 * The session state that several files share: the browser's localStorage (a map from
 * key to string), the user held by the Redux store, and the current location.
 *
 * The store's `login(u)` and `logout()` reducers are not part of this model; they
 * appear here only as set-user and clear-user.
 */
module Session {
  import opened Json

  /** The key the login flow, the guards and the main API client read the token from. */
  const AccessTokenKey := "access_token"
  /** The key holding the serialised user. */
  const UserDataKey := "user_data"
  /** The key the second API client reads its token from. */
  const LegacyTokenKey := "token"

  /** `localStorage.getItem(key)` is truthy: present and not the empty string. */
  predicate HasValue(storage: map<string, string>, key: string) {
    key in storage && storage[key] != ""
  }

  datatype SessionState = SessionState(storage: map<string, string>, user: Json, location: string)

  /** `dispatch(login(u))`: the store now holds u; storage and location are untouched. */
  function Login(s: SessionState, u: Json): (r: SessionState)
    ensures r.user == u && r.storage == s.storage && r.location == s.location
  {
    s.(user := u)
  }

  /** `dispatch(logout())`, the Navbar's logout button: only the in-memory user is cleared. */
  function Logout(s: SessionState): (r: SessionState)
    ensures !Truthy(r.user) && r.storage == s.storage && r.location == s.location
  {
    s.(user := Null)
  }

  /** The live session: one object that the handlers of every file update in place. */
  class AppState {
    var storage: map<string, string>
    var user: Json
    var location: string

    function State(): SessionState
      reads this
    {
      SessionState(storage, user, location)
    }

    /** A fresh page load: storage survives, the store starts with no user. */
    constructor (storage: map<string, string>, location: string)
      ensures State() == SessionState(storage, Null, location)
    {
      this.storage := storage;
      this.user := Null;
      this.location := location;
    }

    method DispatchLogin(u: Json)
      modifies this`user
      ensures State() == Login(old(State()), u)
    {
      user := u;
    }

    method DispatchLogout()
      modifies this`user
      ensures State() == Logout(old(State()))
    {
      user := Null;
    }
  }
}
