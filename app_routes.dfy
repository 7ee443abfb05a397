/**
 * The route table of src/routes/AppRoutes.tsx as a classification of paths, and where a
 * navigation ends once the user-only guard of src/routes/ProtectedRoute.tsx has run.
 */
module AppRoutes {
  import opened Json
  import RouteGuard

  datatype Page = LoginPage | HomePage | DashboardPage | NotFoundPage

  /** Which route element a path selects: open, or nested under the guard and the layout. */
  datatype RouteMatch = Open(page: Page) | Guarded(page: Page)

  function Match(path: string): (m: RouteMatch)
    ensures m.Guarded? <==> path == "/" || path == "/dashboard"
    ensures m == Open(LoginPage) <==> path == "/login"
    ensures m.page == NotFoundPage <==> path != "/login" && path != "/" && path != "/dashboard"
  {
    if path == "/login" then Open(LoginPage)
    else if path == "/" then Guarded(HomePage)
    else if path == "/dashboard" then Guarded(DashboardPage)
    else Open(NotFoundPage)
  }

  /** The page shown and the final path; `inLayout` when the guard let the layout render. */
  datatype Landing = Landing(path: string, page: Page, inLayout: bool)

  /** Navigate to `path` with the store holding `user`, following the guard's redirect. */
  function Land(path: string, user: Json): (l: Landing)
    ensures l.inLayout <==> Match(path).Guarded? && Truthy(user)
    ensures l.inLayout ==> l.path == path && l.page == Match(path).page
  {
    match Match(path)
    case Open(page) => Landing(path, page, false)
    case Guarded(page) =>
      match RouteGuard.Decide(user)
      case RenderOutlet => Landing(path, page, true)
      case Redirect(to, _) => Landing(to, Match(to).page, false)
  }

  /** With no user, every navigation to a guarded path ends on the login page at `/login`. */
  lemma NoUserEndsAtLogin(path: string, user: Json)
    requires !Truthy(user)
    requires path == "/" || path == "/dashboard"
    ensures Land(path, user) == Landing("/login", LoginPage, false)
  {
  }

  /** `/register` and `/add-goal` are not in this table: they show NotFound, for anyone. */
  lemma UnlistedPathsNotFound(user: Json)
    ensures Land("/register", user) == Landing("/register", NotFoundPage, false)
    ensures Land("/add-goal", user) == Landing("/add-goal", NotFoundPage, false)
  {
  }
}
