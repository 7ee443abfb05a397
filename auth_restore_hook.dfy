/**
 * The `useAuthRestore` hook of src/hooks/useAuthRestore.ts: the same restore as the
 * initializer component, written out again, with no gate on rendering.
 */
module AuthRestoreHook {
  import opened Basics
  import opened Json
  import opened Session
  import opened AuthInitializer

  /** `restoreAuth`: it makes the initializer's decision for every storage state. */
  method RestoreAuth(app: AppState, parse: string -> Option<Json>)
    modifies app`user
    ensures app.State() == ApplyRestore(old(app.State()), RestoredUser(old(app.storage), parse))
  {
    var token := if AccessTokenKey in app.storage then app.storage[AccessTokenKey] else "";
    var userDataStr := if UserDataKey in app.storage then app.storage[UserDataKey] else "";
    if token != "" {
      var userData := FallbackUser;
      if userDataStr != "" {
        var parsed := parse(userDataStr);
        if parsed.Some? {
          userData := parsed.value;
        }
      }
      app.DispatchLogin(userData);
    }
  }
}
