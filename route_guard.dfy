/**
 * The route guard of src/routes/ProtectedRoute.tsx: it admits exactly when the store
 * holds a user, and never looks at storage.
 */
module RouteGuard {
  import opened Json

  datatype Decision =
    | RenderOutlet
    | Redirect(to: string, replace: bool)  // `<Navigate to replace>`, no return state

  function Decide(user: Json): (r: Decision)
    ensures r.RenderOutlet? <==> Truthy(user)
    ensures r.Redirect? ==> r == Redirect("/login", true)
  {
    if Truthy(user) then RenderOutlet else Redirect("/login", true)
  }
}
