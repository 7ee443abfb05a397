/**
 * The `API_ENDPOINTS` table of src/services/endpoints.ts: fixed paths, and builders
 * that append an id verbatim to a fixed prefix.
 */
module Endpoints {
  import opened Basics

  const AuthLogin := "/auth/login"
  const AuthRegister := "/auth/register"
  const AuthLogout := "/auth/logout"
  const AuthRefreshToken := "/auth/refresh"
  const AuthForgotPassword := "/auth/forgot-password"
  const AuthResetPassword := "/auth/reset-password"
  const AuthVerifyEmail := "/auth/verify-email"

  const UsersProfile := "/users/profile"
  const UsersUpdateProfile := "/users/profile"
  const UsersChangePassword := "/users/change-password"
  const UsersList := "/users"

  const DashboardStats := "/dashboard/stats"
  const DashboardRecentActivities := "/dashboard/recent-activities"
  const DashboardCharts := "/dashboard/charts"

  const TransactionsList := "/transactions"
  const TransactionsCreate := "/transactions"
  const TransactionsSearch := "/transactions/search"
  const TransactionsExport := "/transactions/export"

  const GoalsList := "/goals"
  const GoalsCreate := "/api/add/goal"

  const ReportsFinancial := "/reports/financial"
  const ReportsTransactions := "/reports/transactions"
  const ReportsUsers := "/reports/users"
  const ReportsExport := "/reports/export"

  const SettingsApp := "/settings/app"
  const SettingsUser := "/settings/user"
  const SettingsNotifications := "/settings/notifications"

  const UsersPrefix := "/users/"
  const TransactionsPrefix := "/transactions/"
  const GoalsPrefix := "/goals/"

  /** The template literal `${prefix}${id}`. */
  function IdPath(prefix: string, id: string): (p: string)
    ensures |p| == |prefix| + |id|
    ensures p[..|prefix|] == prefix && p[|prefix|..] == id
  {
    prefix + id
  }

  /** The id in a path built from `prefix`, if the path starts with it. */
  function IdOf(prefix: string, path: string): Option<string> {
    if |path| >= |prefix| && path[..|prefix|] == prefix then Some(path[|prefix|..]) else None
  }

  /** The id can be read back from every path a builder makes. */
  lemma IdPathRoundTrip(prefix: string, id: string)
    ensures IdOf(prefix, IdPath(prefix, id)) == Some(id)
  {
    assert IdPath(prefix, id)[..|prefix|] == prefix;
    assert IdPath(prefix, id)[|prefix|..] == id;
  }

  /** A builder maps distinct ids to distinct paths. */
  lemma IdPathInjective(prefix: string, a: string, b: string)
    requires IdPath(prefix, a) == IdPath(prefix, b)
    ensures a == b
  {
    IdPathRoundTrip(prefix, a);
    IdPathRoundTrip(prefix, b);
  }

  function UsersGetById(id: string): string { IdPath(UsersPrefix, id) }
  function UsersDelete(id: string): string { IdPath(UsersPrefix, id) }
  function TransactionsGetById(id: string): string { IdPath(TransactionsPrefix, id) }
  function TransactionsUpdate(id: string): string { IdPath(TransactionsPrefix, id) }
  function TransactionsDelete(id: string): string { IdPath(TransactionsPrefix, id) }
  function GoalsGetById(id: string): string { IdPath(GoalsPrefix, id) }
  function GoalsUpdate(id: string): string { IdPath(GoalsPrefix, id) }
  function GoalsDelete(id: string): string { IdPath(GoalsPrefix, id) }

  /**
   * Reading, updating and deleting one goal all address `/goals/<id>`, a path that is
   * never the list path nor the create path, and different goals get different paths.
   */
  lemma GoalPaths(id: string, other: string)
    ensures GoalsGetById(id) == GoalsUpdate(id) == GoalsDelete(id) == "/goals/" + id
    ensures GoalsGetById(id) != GoalsList && GoalsGetById(id) != GoalsCreate
    ensures GoalsCreate != GoalsList
    ensures id != other ==> GoalsGetById(id) != GoalsGetById(other)
  {
    if id != other && GoalsGetById(id) == GoalsGetById(other) {
      IdPathInjective(GoalsPrefix, id, other);
    }
    assert GoalsGetById(id)[1] == 'g' != GoalsCreate[1];
  }

  /** Both user builders address `/users/<id>`, and the profile paths coincide. */
  lemma UserPaths(id: string, other: string)
    ensures UsersGetById(id) == UsersDelete(id) == "/users/" + id
    ensures UsersProfile == UsersUpdateProfile
    ensures id != other ==> UsersGetById(id) != UsersGetById(other)
  {
    if id != other && UsersGetById(id) == UsersGetById(other) {
      IdPathInjective(UsersPrefix, id, other);
    }
  }

  /** The three transaction builders agree, and distinct ids give distinct paths. */
  lemma TransactionPaths(id: string, other: string)
    ensures TransactionsGetById(id) == TransactionsUpdate(id) == TransactionsDelete(id)
            == "/transactions/" + id
    ensures id != other ==> TransactionsGetById(id) != TransactionsGetById(other)
  {
    if id != other && TransactionsGetById(id) == TransactionsGetById(other) {
      IdPathInjective(TransactionsPrefix, id, other);
    }
  }
}
