/**
 * The session across files: login (src/features/auth/LoginForm.tsx), logout, the
 * 401 handler of src/services/apiClient.ts and a page reload with the restore of
 * src/components/auth/AuthInitializer.tsx, seen through the two route guards. The
 * client keeps two sources of truth, the in-memory user and the stored token, and
 * each guard trusts a different one.
 */
module SessionProperties {
  import opened Basics
  import opened Json
  import opened Session
  import LoginForm
  import ApiClient
  import AuthInitializer
  import AuthGuard
  import RouteGuard
  import AppRoutes

  /** The events that change the session. */
  datatype Event =
    | LoginSubmit     // the login form's `handleLogin`
    | LogoutClick     // `dispatch(logout())`
    | Unauthorized    // a 401 reaching the main API client, and the page load it starts
    | Reload          // a page load, with the initializer's restore

  /**
   * One event. The 401 handler assigns `window.location.href`, so its step ends in a
   * page load of `/login`: a fresh store and the initializer's restore.
   */
  function Step(s: SessionState, e: Event, parse: string -> Option<Json>): (r: SessionState)
    ensures e == LoginSubmit ==> r == LoginForm.AfterLogin(s)
    ensures e == LogoutClick ==> r == Logout(s)
    ensures e == Unauthorized ==>
              var h := ApiClient.AfterUnauthorized(s);
              r == AuthInitializer.BootState(h.storage, h.location, parse)
    ensures e == Reload ==> r == AuthInitializer.BootState(s.storage, s.location, parse)
  {
    match e
    case LoginSubmit => LoginForm.AfterLogin(s)
    case LogoutClick => Logout(s)
    case Unauthorized =>
      var h := ApiClient.AfterUnauthorized(s);
      AuthInitializer.BootState(h.storage, h.location, parse)
    case Reload => AuthInitializer.BootState(s.storage, s.location, parse)
  }

  /** The session after the events, in order. */
  function Run(s: SessionState, events: seq<Event>, parse: string -> Option<Json>): (r: SessionState)
    ensures events == [] ==> r == s
    ensures |events| == 1 ==> r == Step(s, events[0], parse)
  {
    if events == [] then s
    else Step(Run(s, events[..|events| - 1], parse), events[|events| - 1], parse)
  }

  /** Running two sequences one after the other is running them joined. */
  lemma {:induction false} RunAppend(s: SessionState, a: seq<Event>, b: seq<Event>,
                                     parse: string -> Option<Json>)
    ensures Run(s, a + b, parse) == Run(Run(s, a, parse), b, parse)
  {
    if b == [] {
      assert a + b == a;
    } else {
      var n := |b| - 1;
      assert (a + b)[..|a + b| - 1] == a + b[..n];
      assert (a + b)[|a + b| - 1] == b[n];
      RunAppend(s, a, b[..n], parse);
    }
  }

  predicate AuthGuardAdmits(s: SessionState) {
    AuthGuard.Decide(s.user, s.storage, s.location).RenderChildren?
  }

  predicate RouteGuardAdmits(s: SessionState) {
    RouteGuard.Decide(s.user).RenderOutlet?
  }

  /** Whenever the user-only guard admits, the user-or-token guard admits too. */
  lemma RouteGuardAdmitsOnlyIfAuthGuardAdmits(s: SessionState)
    ensures RouteGuardAdmits(s) ==> AuthGuardAdmits(s)
  {
  }

  /** The converse fails: a stored token with no user passes one guard only. */
  lemma GuardsDisagree()
    ensures var s := SessionState(map[AccessTokenKey := "t"], Null, "/dashboard");
            AuthGuardAdmits(s) && !RouteGuardAdmits(s)
  {
  }

  /** Logging out leaves the token, so the user-or-token guard still admits. */
  lemma LogoutLeavesTokenGuardOpen(s: SessionState)
    requires HasValue(s.storage, AccessTokenKey)
    ensures AuthGuardAdmits(Logout(s)) && !RouteGuardAdmits(Logout(s))
  {
  }

  /**
   * The 401 handler itself leaves the user in memory: until the page load it starts
   * replaces the store, both guards still admit, with no token left.
   */
  lemma UnauthorizedKeepsUser(s: SessionState)
    requires Truthy(s.user)
    ensures !HasValue(ApiClient.AfterUnauthorized(s).storage, AccessTokenKey)
    ensures AuthGuardAdmits(ApiClient.AfterUnauthorized(s))
    ensures RouteGuardAdmits(ApiClient.AfterUnauthorized(s))
  {
  }

  /**
   * The page load a 401 starts restores nothing: it lands on the login page with no
   * user, and both guards refuse.
   */
  lemma UnauthorizedLocksOut(s: SessionState, parse: string -> Option<Json>)
    ensures var r := Run(s, [Unauthorized], parse);
            r.user == Null && r.location == "/login" && !AuthGuardAdmits(r) && !RouteGuardAdmits(r)
            && AppRoutes.Land(r.location, r.user) == AppRoutes.Landing("/login", AppRoutes.LoginPage, false)
  {
  }

  /**
   * Logging in writes no token, so when there was none a reload forgets the user and
   * the dashboard then lands on the login page.
   */
  lemma LoginDoesNotSurviveReload(s: SessionState, parse: string -> Option<Json>)
    requires !HasValue(s.storage, AccessTokenKey)
    ensures RouteGuardAdmits(Run(s, [LoginSubmit], parse))
    ensures var r := Run(s, [LoginSubmit, Reload], parse);
            r.user == Null && r.location == "/dashboard"
            && AppRoutes.Land(r.location, r.user) == AppRoutes.Landing("/login", AppRoutes.LoginPage, false)
  {
    assert [LoginSubmit, Reload][..1] == [LoginSubmit];
  }

  /**
   * A stored `user_data` of "null" parses to null: the restore then logs in a falsy
   * user, so the token guard admits while the user guard refuses.
   */
  lemma NullUserDataSplitsGuards(storage: map<string, string>, location: string,
                                 parse: string -> Option<Json>)
    requires HasValue(storage, AccessTokenKey) && HasValue(storage, UserDataKey)
    requires parse(storage[UserDataKey]) == Some(Null)
    ensures var b := AuthInitializer.BootState(storage, location, parse);
            b.user == Null && AuthGuardAdmits(b) && !RouteGuardAdmits(b)
  {
  }

  /**
   * No event writes to storage: every key left afterwards was there before with the
   * same value. In particular no event ever stores a token.
   */
  lemma {:induction false} StorageOnlyShrinks(s: SessionState, events: seq<Event>,
                                             parse: string -> Option<Json>)
    ensures var r := Run(s, events, parse);
            forall k :: k in r.storage ==> k in s.storage && r.storage[k] == s.storage[k]
  {
    if events != [] {
      StorageOnlyShrinks(s, events[..|events| - 1], parse);
    }
  }

  /**
   * Starting without a token, whatever happens, a reload ends with no user and both
   * guards refusing.
   */
  lemma NoTokenNoSession(s: SessionState, events: seq<Event>, parse: string -> Option<Json>)
    requires !HasValue(s.storage, AccessTokenKey)
    ensures var r := Step(Run(s, events, parse), Reload, parse);
            r.user == Null && !AuthGuardAdmits(r) && !RouteGuardAdmits(r)
  {
    StorageOnlyShrinks(s, events, parse);
  }

  /** Once a 401 has removed the token, no later event brings it back. */
  lemma {:induction false} UnauthorizedIsFinal(s: SessionState, events: seq<Event>,
                                              parse: string -> Option<Json>)
    requires Unauthorized in events
    ensures !HasValue(Run(s, events, parse).storage, AccessTokenKey)
  {
    var n := |events| - 1;
    if events[n] == Unauthorized {
    } else {
      assert Unauthorized in events[..n] by {
        var i :| 0 <= i < |events| && events[i] == Unauthorized;
        assert events[..n][i] == Unauthorized;
      }
      UnauthorizedIsFinal(s, events[..n], parse);
    }
  }
}
