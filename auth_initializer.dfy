/**
 * Restoring the session at start-up (src/components/auth/AuthInitializer.tsx).
 * `JSON.parse` is the parameter `parse`, with None for the SyntaxError it throws.
 */
module AuthInitializer {
  import opened Basics
  import opened Json
  import opened Session

  /** The identity used when the stored user is missing or does not parse. */
  const FallbackUser := UserObject("User", "user-id")

  /**
   * The user a restore logs in, if any: none without a truthy token; otherwise the
   * parsed `user_data` when it is truthy and parses, and the fallback identity when it
   * is missing, empty or malformed.
   */
  function RestoredUser(storage: map<string, string>, parse: string -> Option<Json>): (r: Option<Json>)
    ensures r.None? <==> !HasValue(storage, AccessTokenKey)
    ensures r.Some? && HasValue(storage, UserDataKey) && parse(storage[UserDataKey]).Some?
            ==> r.value == parse(storage[UserDataKey]).value
    ensures r.Some? && (!HasValue(storage, UserDataKey) || parse(storage[UserDataKey]).None?)
            ==> r.value == FallbackUser
  {
    if !HasValue(storage, AccessTokenKey) then None
    else if HasValue(storage, UserDataKey) && parse(storage[UserDataKey]).Some?
    then Some(parse(storage[UserDataKey]).value)
    else Some(FallbackUser)
  }

  /** The session after a restore: one login when a user was restored, else unchanged. */
  function ApplyRestore(s: SessionState, restored: Option<Json>): (r: SessionState)
    ensures r.storage == s.storage && r.location == s.location
    ensures r.user == if restored.Some? then restored.value else s.user
  {
    if restored.Some? then Login(s, restored.value) else s
  }

  /** A page load: a store with no user, then this component's restore. */
  function BootState(storage: map<string, string>, location: string, parse: string -> Option<Json>)
    : (r: SessionState)
    ensures r.storage == storage && r.location == location
    ensures !HasValue(storage, AccessTokenKey) ==> r.user == Null
    ensures HasValue(storage, AccessTokenKey) ==> r.user == RestoredUser(storage, parse).value
  {
    ApplyRestore(SessionState(storage, Null, location), RestoredUser(storage, parse))
  }

  /**
   * `initializeAuth`'s decision, as written: start from the fallback identity,
   * overwrite it with the parsed value when `user_data` is truthy and parses, and
   * dispatch it only when a token is present.
   */
  method DecideRestore(storage: map<string, string>, parse: string -> Option<Json>)
    returns (dispatched: Option<Json>)
    ensures dispatched == RestoredUser(storage, parse)
  {
    var token := if AccessTokenKey in storage then storage[AccessTokenKey] else "";
    var userDataStr := if UserDataKey in storage then storage[UserDataKey] else "";
    dispatched := None;
    if token != "" {
      var userData := FallbackUser;
      if userDataStr != "" {
        var parsed := parse(userDataStr);
        if parsed.Some? {
          userData := parsed.value;
        }
      }
      dispatched := Some(userData);
    }
  }

  /** What the component renders. */
  datatype View = Initializing | Children

  class Initializer {
    var isInitialized: bool

    constructor ()
      ensures !isInitialized
    {
      isInitialized := false;
    }

    /** Until the restore has run only the loading view shows. */
    function Render(): (v: View)
      reads this
      ensures v == Children <==> isInitialized
    {
      if isInitialized then Children else Initializing
    }

    /** The effect: restore, then open the gate. Storage is read, never written. */
    method InitializeAuth(app: AppState, parse: string -> Option<Json>)
      modifies this`isInitialized, app`user
      ensures isInitialized
      ensures app.State() == ApplyRestore(old(app.State()), RestoredUser(old(app.storage), parse))
    {
      var dispatched := DecideRestore(app.storage, parse);
      if dispatched.Some? {
        app.DispatchLogin(dispatched.value);
      }
      isInitialized := true;
    }
  }
}
