/** The `routesConfig` table of src/routes/config.tsx. */
module RoutesConfig {
  import opened Basics

  datatype Element = LoginForm | RegisterForm | DashboardPage | AddGoal | ReportsPlaceholder

  datatype RouteEntry = RouteEntry(path: string, element: Element, isPublic: bool)

  const Routes: seq<RouteEntry> := [
    RouteEntry("/login", LoginForm, true),
    RouteEntry("/register", RegisterForm, true),
    RouteEntry("/dashboard", DashboardPage, false),
    RouteEntry("/add-goal", AddGoal, false),
    RouteEntry("/reports", ReportsPlaceholder, false)
  ]

  /** The first entry for a path. */
  function Lookup(entries: seq<RouteEntry>, path: string): (r: Option<RouteEntry>)
    ensures r.Some? ==> r.value in entries && r.value.path == path
    ensures r.None? ==> forall i :: 0 <= i < |entries| ==> entries[i].path != path
  {
    if entries == [] then None
    else if entries[0].path == path then Some(entries[0])
    else Lookup(entries[1..], path)
  }

  function CountPublic(entries: seq<RouteEntry>): (n: nat)
    ensures n <= |entries|
  {
    if entries == [] then 0 else (if entries[0].isPublic then 1 else 0) + CountPublic(entries[1..])
  }

  /** No two entries share a path, so "public" is a function of the path. */
  lemma PathsDistinct()
    ensures forall i, j :: 0 <= i < j < |Routes| ==> Routes[i].path != Routes[j].path
  {
  }

  /** `/login` and `/register` are public; `/dashboard`, `/add-goal` and `/reports` are not. */
  lemma PublicPaths()
    ensures Lookup(Routes, "/login") == Some(RouteEntry("/login", LoginForm, true))
    ensures Lookup(Routes, "/register") == Some(RouteEntry("/register", RegisterForm, true))
    ensures forall p :: p in ["/dashboard", "/add-goal", "/reports"]
                        ==> Lookup(Routes, p).Some? && !Lookup(Routes, p).value.isPublic
  {
  }

  /** Exactly two of the five entries are public. */
  lemma TwoPublic()
    ensures |Routes| == 5 && CountPublic(Routes) == 2
  {
  }
}
