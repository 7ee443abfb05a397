/**
 * The route guard of src/components/auth/ProtectedRoute.tsx: it admits when the store
 * holds a user OR localStorage holds a token.
 */
module AuthGuard {
  import opened Basics
  import opened Json
  import opened Session

  datatype Decision =
    | RenderChildren
    | Redirect(to: string, replace: bool, from: Option<string>)  // `<Navigate to replace state={{ from }}>`

  function Decide(user: Json, storage: map<string, string>, location: string): (r: Decision)
    ensures r.RenderChildren? <==> Truthy(user) || HasValue(storage, AccessTokenKey)
    ensures r.Redirect? ==> r == Redirect("/login", true, Some(location))
  {
    if Truthy(user) || HasValue(storage, AccessTokenKey) then RenderChildren
    else Redirect("/login", true, Some(location))
  }
}
