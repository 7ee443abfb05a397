# Goal tracker client: a Dafny model

This project models the logic of a small React client for tracking goals. A user
signs in, the session is restored when the page loads, route guards decide who may
see which page, and API clients attach a `Bearer` token (section 2.1 of RFC 6750)
and react to a 401 answer (section 15.5.2 of RFC 9110). On the goal pages, a form
computes a default end date and validates a new goal, and a table loads, filters and
pages the user's goals. Two theme slices hold the colour mode.

Each source file has its own Dafny module:

| module | source file | form |
|---|---|---|
| `Calendar`, `IsoDate` | date arithmetic used by `src/features/goal/Add-goal.tsx` | functions and lemmas |
| `EndDate` | `calculateEndDate` in `src/features/goal/Add-goal.tsx` | functions and lemmas |
| `AddGoalForm` | the form handlers of `src/features/goal/Add-goal.tsx` | class `AddGoal` |
| `GoalValidation` | `src/features/goal/validation/goalValidation.ts` | predicates and lemmas |
| `GoalsList` | `src/features/goal/GoalsList.tsx` | functions, and class `GoalsListState` |
| `RegisterForm` | `src/features/auth/RegisterForm.tsx` | class `Register` |
| `LoginForm` | `src/features/auth/LoginForm.tsx` | class `Form` |
| `AuthInitializer` | `src/components/auth/AuthInitializer.tsx` | class `Initializer` |
| `AuthRestoreHook` | `src/hooks/useAuthRestore.ts` | method |
| `AuthGuard` | `src/components/auth/ProtectedRoute.tsx` | function |
| `RouteGuard` | `src/routes/ProtectedRoute.tsx` | function |
| `AppRoutes` | `src/routes/AppRoutes.tsx` | functions |
| `RoutesConfig` | `src/routes/config.tsx` | constant table |
| `ApiClient` | `src/services/apiClient.ts` | methods on `Http.RequestConfig` and `Session.AppState` |
| `AxiosClient` | `src/services/axios.ts` | methods on `Http.RequestConfig` |
| `Endpoints` | `src/services/endpoints.ts` | constants and builders |
| `AppThemeSlice` | `src/app/themeSlice.ts` | class `Theme` and reducer function |
| `ThemeSlice` | `src/theme/index.ts` | class `Theme` and reducer function |
| `SessionProperties` | the session across all the files above | lemmas |

Some modules hold shared vocabulary:
- `Basics`: `Option` and `Result`.
- `Json`: the values `JSON.parse` returns, and JavaScript truthiness.
- `Session`: localStorage as a `map<string, string>`, the store's user, the location, and the class `AppState` that holds all three.
- `Http`: thrown error shapes, the `Bearer` header, and the mutable request config.

The session is one object, `Session.AppState`. Login, restore, logout and the 401
handler update its fields in place. The guards read it. `SessionProperties` follows
the state through sequences of events. It proves that the client has two sources of
truth, the user in memory and the token in storage, and that its two guards trust
different ones.

Dates are computed in UTC. `Calendar` relates calendar stepping to the day numbers
of ECMA-262 section 21.4.1 (`DayFromYear`, `MakeDay`). It proves that the day number
is injective on valid dates. So the end date `EndDate` computes is the only date the
`setDate`/`setMonth` arithmetic designates. `IsoDate` reads and writes the
`full-date` form of section 5.6 of RFC 3339, and proves both round trips.

The request interceptor's comment at `src/services/apiClient.ts:15` says the token is
saved after login, and `src/services/api.ts:16` defines a logout endpoint. The code
does less, and the model follows the code:
- Logging in writes nothing to localStorage: `handleLogin` only dispatches a fixed user and navigates.
- Logging out clears only the user in memory; the token stays in storage, so the user-or-token guard still admits afterwards. The logout endpoint is never called.
- The 401 handler removes `access_token` but neither `user_data` nor the user in memory. The page load it starts by assigning `window.location.href` then discards the store, and the restore finds no token, so the session ends there.

## Model

| member | source | states |
|---|---|---|
| Calendar.AddDaysNumber | src/features/goal/Add-goal.tsx:29-30 | Counting n calendar days forward moves the ECMA-262 day number up by exactly n. |
| Calendar.DayNumberMonotone | src/features/goal/Add-goal.tsx:23-37 | The day number strictly increases in calendar order. |
| Calendar.DayNumberInjective | src/features/goal/Add-goal.tsx:23-37 | Distinct valid dates have distinct day numbers, so a day number names one date. |
| Calendar.MakeDayOfDate | src/features/goal/Add-goal.tsx:23 | MakeDay of a date's own fields, month 0-based, is its day number. |
| IsoDate.Format | src/features/goal/Add-goal.tsx:31 | `toISOString().split("T")[0]`: ten characters with dashes at 4 and 7 for years 0 to 9999, a signed six-digit year otherwise; its inverse is `Parse` (see the two round trips). |
| IsoDate.ParseFormat | src/features/goal/Add-goal.tsx:31 | Reading back a written date, years 0 to 9999, gives the same date. |
| IsoDate.FormatParse | src/features/goal/Add-goal.tsx:23 | Every string that reads as a date is exactly how that date is written. |
| IsoDate.Parse | src/features/goal/Add-goal.tsx:23 | Only valid calendar dates with four-digit years are read; anything else is an invalid Date. |
| EndDate.CalculateEndDate | src/features/goal/Add-goal.tsx:20-42 | It fails (RangeError) exactly for a non-empty start that is not a date with a weekly or monthly type; for an empty argument or any other type it returns the start unchanged. |
| EndDate.WeeklyEnd | src/features/goal/Add-goal.tsx:29-30 | `setDate(getDate() + 6)`: a valid date exactly six days after the start. |
| EndDate.SameDayNextMonth | src/features/goal/Add-goal.tsx:34-35 | `setMonth(getMonth() + 1)`: a valid date; where it lands is `SameDayNextMonthNumber`. |
| EndDate.MonthlyEnd | src/features/goal/Add-goal.tsx:33-37 | `setMonth(+1)` then `setDate(-1)`: a valid date; where it lands is `MonthlyEndNumber`. |
| EndDate.WeeklyEndNumber | src/features/goal/Add-goal.tsx:28-32 | The weekly end is the day MakeDay designates for start day + 6, six days after the start. |
| EndDate.SameDayNextMonthNumber | src/features/goal/Add-goal.tsx:34-35 | `setMonth(getMonth() + 1)` lands on the day MakeDay designates for the same day of the next month, overflow rolled forward. |
| EndDate.MonthlyEndNumber | src/features/goal/Add-goal.tsx:33-37 | The monthly end is one day before MakeDay of the same day next month, with overflow rolled forward. |
| EndDate.WeeklyEndUnique | src/features/goal/Add-goal.tsx:28-32 | No other valid date has the weekly end's day number. |
| EndDate.MonthlyEndUnique | src/features/goal/Add-goal.tsx:33-37 | No other valid date has the monthly end's day number. |
| EndDate.WithinNextYear | src/features/goal/Add-goal.tsx:28-37 | A date at most 365 days after the start lies in the start's year or the next. |
| EndDate.DefaultEndDate | src/features/goal/Add-goal.tsx:20-42 | For a readable start and a schema goal type, the result reads as a date; it equals the start for daily; for weekly its day number is the start's + 6, for monthly MakeDay of the same day next month − 1. |
| EndDate.WeeklyExample | src/features/goal/Add-goal.tsx:28-32 | 2024-03-10 weekly ends on 2024-03-16. |
| EndDate.WeeklyAcrossYearExample | src/features/goal/Add-goal.tsx:28-32 | 2024-12-28 weekly ends on 2025-01-03. |
| EndDate.MonthlyExample | src/features/goal/Add-goal.tsx:33-37 | 2024-03-10 monthly ends on 2024-04-09. |
| EndDate.MonthlyOverflowExample | src/features/goal/Add-goal.tsx:33-37 | 2024-01-31 monthly rolls past February 2024 and ends on 2024-03-01. |
| GoalValidation.TitleAccepted | src/features/goal/validation/goalValidation.ts:5-8 | Required, 3 to 100 characters. |
| GoalValidation.DescriptionAccepted | src/features/goal/validation/goalValidation.ts:10-13 | Required, 10 to 500 characters. |
| GoalValidation.GoalTypeAccepted | src/features/goal/validation/goalValidation.ts:15-17 | One of daily, weekly, monthly. |
| GoalValidation.StartDateAccepted | src/features/goal/validation/goalValidation.ts:19-21 | Reads as a date whose UTC midnight is not before the instant captured when the schema was built. |
| GoalValidation.EndDateAccepted | src/features/goal/validation/goalValidation.ts:23-25 | Both dates read as dates and the end's midnight is not before the start's. |
| GoalValidation.PriorityAccepted | src/features/goal/validation/goalValidation.ts:27-29 | One of low, medium, high. |
| GoalValidation.CategoryAccepted | src/features/goal/validation/goalValidation.ts:31-33 | Required, at least 2 characters, no upper bound. |
| GoalValidation.Accepts | src/features/goal/validation/goalValidation.ts:4-34 | Every field rule holds; an accepted form's dates both read as dates, the end on or after the start. |
| GoalValidation.Errors | src/features/goal/validation/goalValidation.ts:4-34 | A field is reported exactly when its own rule fails. |
| GoalValidation.AcceptsIffNoErrors | src/features/goal/validation/goalValidation.ts:4-34 | The schema accepts a form exactly when no field reports an error. |
| GoalValidation.TextBounds | src/features/goal/validation/goalValidation.ts:5-13 | Title 3 to 100, description 10 to 500 and category at least 2 characters, bounds inclusive. |
| GoalValidation.TodayRejected | src/features/goal/validation/goalValidation.ts:19-21 | Today's date is rejected as a start once the schema's instant is past midnight. |
| GoalValidation.TomorrowAccepted | src/features/goal/validation/goalValidation.ts:19-21 | Tomorrow's date is accepted as a start. |
| GoalValidation.DefaultEndDateAccepted | src/features/goal/validation/goalValidation.ts:23-25 | The end date the form fills in for a schema goal type meets the end-not-before-start rule. |
| AddGoalForm.InitialValues | src/features/goal/Add-goal.tsx:53-61 | Empty text fields, with both dates set to today. |
| AddGoalForm.SubmitErrorMessage | src/features/goal/Add-goal.tsx:110-124 | With a `response` key: the server message, else the error message, else the fallback. Without one: the fallback. Never empty. |
| AddGoalForm.EndDateAfter | src/features/goal/Add-goal.tsx:137-138 | The end date becomes the computed one, and stays as it was when the computation throws. |
| AddGoalForm.AddGoal.constructor | src/features/goal/Add-goal.tsx:50-61 | Values and the reset target are the initial values; no error; not submitting. |
| AddGoalForm.AddGoal.HandleGoalTypeChange | src/features/goal/Add-goal.tsx:132-139 | The type is stored and the end date recomputed from the current start date; nothing else changes. |
| AddGoalForm.AddGoal.HandleStartDateChange | src/features/goal/Add-goal.tsx:142-153 | The start is stored; the end date is recomputed only when a goal type is set. |
| AddGoalForm.AddGoal.HandleSubmit | src/features/goal/Add-goal.tsx:63-128 | An invalid form sends nothing. Without a token it sends nothing and shows the login message. Otherwise it sends the seven fields unchanged, resets only on success and shows the chosen message on failure. |
| GoalsList.PriorityColor | src/features/goal/GoalsList.tsx:51-62 | high, medium and low map to error, warning and success; "default" exactly off the schema's priorities. |
| GoalsList.GoalTypeColor | src/features/goal/GoalsList.tsx:65-76 | daily, weekly and monthly map to primary, secondary and info; "default" exactly off the schema's goal types. |
| GoalsList.DescribesQuery | src/features/goal/GoalsList.tsx:119-127 | The request parameters for a UI state: `page` and `per_page` always, each filter key exactly when it is set. |
| GoalsList.BuildParams | src/features/goal/GoalsList.tsx:119-127 | page is the UI page + 1, per_page the page size; each filter is present exactly when set; status is true exactly for "completed". |
| GoalsList.Normalised | src/features/goal/GoalsList.tsx:134-146 | A `goals` field gives that list with a truthy `total`, else its length; an array gives itself and its length; other bodies give nothing and 0; null throws. |
| GoalsList.Settle | src/features/goal/GoalsList.tsx:133-168 | A readable reply stores `Normalised`'s list and total with no error; a null body or a value without `response` keeps the list and shows the fallback; 404 empties the list; 401 keeps it; others keep it and show the server message or the fallback. |
| GoalsList.PageSlice | src/features/goal/GoalsList.tsx:346-347 | At most `rows` goals, a contiguous run starting at page × rows, and a full page while goals remain. |
| GoalsList.LaterPagesOfOnePageReplyAreEmpty | src/features/goal/GoalsList.tsx:119-122 | When the server returns one page and the table slices it again, every page after the first shows no rows. |
| GoalsList.GoalsListState.constructor | src/features/goal/GoalsList.tsx:84-97 | Loading, page 0, ten rows per page, empty list, no error and no filters. |
| GoalsList.GoalsListState.Body | src/features/goal/GoalsList.tsx:326-347 | The loading row while loading; else the error row with the message; else the empty row for no goals; else exactly `PageSlice` of the goals for the page, at most a page long. |
| GoalsList.GoalsListState.LoadGoals | src/features/goal/GoalsList.tsx:103-172 | Without a token: the login message and no request. Otherwise the request describes the current state and the list settles on the reply. Loading ends false either way. |
| GoalsList.GoalsListState.ReadBody | src/features/goal/GoalsList.tsx:129-146 | A readable body replaces list and total; a null body leaves the generic error. |
| GoalsList.GoalsListState.ReportFailure | src/features/goal/GoalsList.tsx:148-168 | The catch block as `Settle` states it. |
| GoalsList.GoalsListState.ChangePage | src/features/goal/GoalsList.tsx:178-180 | The page becomes the one chosen. |
| GoalsList.GoalsListState.ChangeRowsPerPage | src/features/goal/GoalsList.tsx:182-185 | A new page size starts again at page 0. |
| GoalsList.GoalsListState.ChangeSearch | src/features/goal/GoalsList.tsx:187-190 | A new search term starts again at page 0. |
| GoalsList.GoalsListState.ChangePriorityFilter | src/features/goal/GoalsList.tsx:256 | Only the priority filter changes; the page stays. |
| GoalsList.GoalsListState.ChangeGoalTypeFilter | src/features/goal/GoalsList.tsx:272 | Only the goal type filter changes; the page stays. |
| GoalsList.GoalsListState.ChangeStatusFilter | src/features/goal/GoalsList.tsx:288 | Only the status filter changes; the page stays. |
| GoalsList.GoalsListState.ClearFilters | src/features/goal/GoalsList.tsx:192-198 | All four filters empty and page 0. |
| RegisterForm.SubmitError | src/features/auth/RegisterForm.tsx:40-48 | Empty exactly when all five fields are filled and the passwords match; an empty field wins over a mismatch. |
| RegisterForm.Register.constructor | src/features/auth/RegisterForm.tsx:23-29 | All fields and the error empty; password hidden. |
| RegisterForm.Register.HandleSubmit | src/features/auth/RegisterForm.tsx:38-51 | Only the error changes; it navigates to `/login` exactly when the error is empty. |
| RegisterForm.Register.ToggleShowPassword | src/features/auth/RegisterForm.tsx:31 | Flips the flag, so two toggles restore it. |
| Session.Login | src/features/auth/LoginForm.tsx:34-39 | Sets the user and leaves storage and location alone. |
| Session.Logout | src/components/layout/Navbar.tsx:54 | Clears the user and leaves storage and location alone. |
| Session.AppState.constructor | src/components/auth/AuthInitializer.tsx:10-12 | A page load keeps storage and starts with no user. |
| Session.AppState.DispatchLogin | src/components/auth/AuthInitializer.tsx:38 | The state becomes `Login` of the old state. |
| Session.AppState.DispatchLogout | src/components/layout/Navbar.tsx:54 | The state becomes `Logout` of the old state. |
| LoginForm.AfterLogin | src/features/auth/LoginForm.tsx:32-41 | The fixed user `{name: "John Doe", id: "some-id"}` (truthy), location `/dashboard`, storage unchanged. |
| LoginForm.Form.constructor | src/features/auth/LoginForm.tsx:28-30 | Empty fields, password hidden. |
| LoginForm.Form.HandleLogin | src/features/auth/LoginForm.tsx:32-41 | Whatever the fields hold, the fixed user is logged in and the location is `/dashboard`; storage is not touched. |
| LoginForm.Form.ToggleShowPassword | src/features/auth/LoginForm.tsx:43 | Flips the flag. |
| Json.UserObject | src/features/auth/LoginForm.tsx:35-38 | The `{name, id}` literal is a truthy value. |
| AuthInitializer.RestoredUser | src/components/auth/AuthInitializer.tsx:17-43 | Nothing without a truthy token; the parsed `user_data` when it is truthy and parses; the fallback identity otherwise. |
| AuthInitializer.ApplyRestore | src/components/auth/AuthInitializer.tsx:38 | At most one login; storage and location unchanged. |
| AuthInitializer.BootState | src/components/auth/AuthInitializer.tsx:10-44 | A page load: storage and location kept; no user without a truthy token, else the restored user. |
| AuthInitializer.DecideRestore | src/components/auth/AuthInitializer.tsx:15-44 | The mutable `userData` walk dispatches exactly `RestoredUser`. |
| AuthInitializer.Initializer.constructor | src/components/auth/AuthInitializer.tsx:12 | Not initialised. |
| AuthInitializer.Initializer.Render | src/components/auth/AuthInitializer.tsx:53-69 | Children show exactly once initialised. |
| AuthInitializer.Initializer.InitializeAuth | src/components/auth/AuthInitializer.tsx:14-50 | Applies the restore decision to the live session, writes no storage, then sets the gate. |
| AuthRestoreHook.RestoreAuth | src/hooks/useAuthRestore.ts:12-36 | The hook makes the initializer's decision for every storage state, with no gate. |
| AuthGuard.Decide | src/components/auth/ProtectedRoute.tsx:10-25 | Admits exactly with a truthy user or a truthy token; otherwise redirects to `/login` with replace and the requested location. |
| RouteGuard.Decide | src/routes/ProtectedRoute.tsx:5-13 | Admits exactly with a truthy user; otherwise redirects to `/login` with replace and no return state. |
| AppRoutes.Match | src/routes/AppRoutes.tsx:11-25 | `/` and `/dashboard` are guarded, `/login` is open, every other path is NotFound. |
| AppRoutes.Land | src/routes/AppRoutes.tsx:11-25 | The layout renders exactly for a guarded path with a truthy user, on that path's page. |
| AppRoutes.NoUserEndsAtLogin | src/routes/AppRoutes.tsx:16-21 | With no user, `/` and `/dashboard` end on the login page at `/login`. |
| AppRoutes.UnlistedPathsNotFound | src/routes/AppRoutes.tsx:24 | `/register` and `/add-goal` show NotFound for anyone. |
| RoutesConfig.Lookup | src/routes/config.tsx:8-15 | A found entry is in the table with that path; nothing found means no entry has it. |
| RoutesConfig.PathsDistinct | src/routes/config.tsx:8-15 | No two entries share a path. |
| RoutesConfig.PublicPaths | src/routes/config.tsx:9-14 | `/login` and `/register` are public; `/dashboard`, `/add-goal` and `/reports` are not. |
| RoutesConfig.TwoPublic | src/routes/config.tsx:8-15 | Exactly two of the five entries are public. |
| Http.BearerRoundTrip | src/services/apiClient.ts:19 | The header value gives back exactly the token sent. |
| Http.WithAuthorization | src/services/apiClient.ts:16-25 | `Authorization` is set to a Bearer value for the stored token exactly when the key is truthy; other headers are kept and no other key is added. |
| Http.PropertyReadError | src/services/apiClient.ts:39 | Reading `.response` of null or undefined throws a TypeError: an object with a message and no `response` key. |
| Http.RequestConfig.constructor | src/services/apiClient.ts:14 | A config with the given url and headers. |
| ApiClient.AfterUnauthorized | src/services/apiClient.ts:42-48 | Only `access_token` is removed and the location becomes `/login`; the user stays. |
| ApiClient.OnRequest | src/services/apiClient.ts:14-26 | Returns the same config, with `Authorization` set from `access_token` exactly when it is truthy. |
| ApiClient.OnRequestError | src/services/apiClient.ts:27-29 | Rejects with the same error. |
| ApiClient.OnResponse | src/services/apiClient.ts:34-37 | Returns the response unchanged. |
| ApiClient.OnResponseError | src/services/apiClient.ts:38-55 | Null or undefined makes the handler throw at its first line: it rejects with that TypeError and changes nothing. Any other value is rejected unchanged; a 401 applies `AfterUnauthorized`; every other status, 5xx included, changes nothing. |
| AxiosClient.OnRequest | src/services/axios.ts:9-16 | Returns the same config, with `Authorization` set from the key `token` exactly when it is truthy. |
| AxiosClient.AccessTokenNeverAttached | src/services/axios.ts:11 | A token stored only under `access_token` is never attached by this client. |
| AxiosClient.OnResponse | src/services/axios.ts:20 | Returns the response unchanged. |
| AxiosClient.OnResponseError | src/services/axios.ts:21-24 | Rejects with the same error and changes nothing else. |
| Endpoints.IdPath | src/services/endpoints.ts:20 | The path is the prefix followed by the id. |
| Endpoints.IdPathRoundTrip | src/services/endpoints.ts:20-21 | The id is read back from every built path. |
| Endpoints.IdPathInjective | src/services/endpoints.ts:20-21 | Distinct ids give distinct paths. |
| Endpoints.GoalPaths | src/services/endpoints.ts:43-49 | Get, update and delete all address `/goals/<id>`, which is never the list or create path; create differs from list; distinct ids differ. |
| Endpoints.UserPaths | src/services/endpoints.ts:15-22 | Get and delete address `/users/<id>`; profile equals update-profile; distinct ids differ. |
| Endpoints.TransactionPaths | src/services/endpoints.ts:35-37 | The three builders agree on `/transactions/<id>`; distinct ids differ. |
| AppThemeSlice.Reduce | src/app/themeSlice.ts:20-30 | Toggle flips the mode and keeps the colour; set-colour changes only the colour; set-mode changes only the mode. |
| AppThemeSlice.ToggleTwice | src/app/themeSlice.ts:21-23 | Two toggles give back the original state. |
| AppThemeSlice.SetThemeModeIdempotent | src/app/themeSlice.ts:27-29 | Setting the mode twice equals setting it once. |
| AppThemeSlice.ColorIsLastSet | src/app/themeSlice.ts:24-26 | After any actions the colour is the start colour, or the colour of the last `setPrimaryColor`. |
| AppThemeSlice.Theme.constructor | src/app/themeSlice.ts:12-15 | Light mode with colour `#1976d1`. |
| AppThemeSlice.Theme.ToggleTheme | src/app/themeSlice.ts:21-23 | The state becomes the reducer's toggle result. |
| AppThemeSlice.Theme.SetPrimaryColor | src/app/themeSlice.ts:24-26 | The state becomes the reducer's set-colour result. |
| AppThemeSlice.Theme.SetThemeMode | src/app/themeSlice.ts:27-29 | The state becomes the reducer's set-mode result. |
| ThemeSlice.Reduce | src/theme/index.ts:19-26 | Toggle flips the mode and keeps the colour; set-colour changes only the colour. |
| ThemeSlice.ToggleTwice | src/theme/index.ts:20-22 | Two toggles give back the original state. |
| ThemeSlice.ModeParity | src/theme/index.ts:19-26 | After any actions the mode is the start mode after an even number of toggles and the other mode after an odd number. |
| ThemeSlice.ModeOnlyByToggling | src/theme/index.ts:19-26 | Without a toggle the mode never changes. |
| ThemeSlice.Theme.constructor | src/theme/index.ts:11-14 | Light mode with colour `#1976d1`. |
| ThemeSlice.Theme.ToggleTheme | src/theme/index.ts:20-22 | The state becomes the reducer's toggle result. |
| ThemeSlice.Theme.SetPrimaryColor | src/theme/index.ts:23-25 | The state becomes the reducer's set-colour result. |
| SessionProperties.Step | src/services/apiClient.ts:42-48 | Each event is its handler: login, logout, a reload with the restore, and a 401 followed by the page load of `/login` that it starts. |
| SessionProperties.Run | src/services/apiClient.ts:42-48 | No events leave the session; one event is its `Step`. |
| SessionProperties.RunAppend | src/services/apiClient.ts:42-48 | Running two event sequences in turn is running them joined. |
| SessionProperties.RouteGuardAdmitsOnlyIfAuthGuardAdmits | src/routes/ProtectedRoute.tsx:8 | Whenever the user-only guard admits, the user-or-token guard admits. |
| SessionProperties.GuardsDisagree | src/components/auth/ProtectedRoute.tsx:17 | A token with no user passes one guard and not the other. |
| SessionProperties.LogoutLeavesTokenGuardOpen | src/components/auth/ProtectedRoute.tsx:17 | After logout a stored token still opens the user-or-token guard, while the user-only guard refuses. |
| SessionProperties.UnauthorizedKeepsUser | src/services/apiClient.ts:42-48 | The handler itself removes the token but keeps the user, so until the page load it starts both guards still admit. |
| SessionProperties.UnauthorizedLocksOut | src/services/apiClient.ts:45-47 | The page load a 401 starts restores no user: it lands on the login page and both guards refuse. |
| SessionProperties.LoginDoesNotSurviveReload | src/features/auth/LoginForm.tsx:32-41 | Without a stored token, login admits until a reload; after it there is no user and `/dashboard` lands on `/login`. |
| SessionProperties.NullUserDataSplitsGuards | src/components/auth/AuthInitializer.tsx:29-38 | A stored `user_data` of "null" restores a falsy user: the token guard admits, the user guard refuses. |
| SessionProperties.StorageOnlyShrinks | src/services/apiClient.ts:45 | No sequence of session events writes storage; keys only disappear. |
| SessionProperties.NoTokenNoSession | src/components/auth/AuthInitializer.tsx:17-20 | Starting without a token, after any events a reload leaves no user and both guards refuse. |
| SessionProperties.UnauthorizedIsFinal | src/services/apiClient.ts:45 | Once a 401 has removed the token, no later event brings it back. |

## Left out

- Rendering: JSX, MUI styling and layout are not modelled. This covers `Layout.tsx`, `Navbar.tsx` (except that its logout button is `Session.Logout`), `Sidebar.tsx`, the custom input and button, `palette.ts`, `AppThemeProvider.tsx`, `ThemeToggleButton.tsx` and `providers.tsx`.
- The `authSlice` reducers are not part of this model. `login(u)` and `logout()` appear only as set-user and clear-user.
- Network: HTTP transport, base URLs, `withCredentials` and the 10-second timeout are left out. The reply of `goalApi.getGoals` and the outcome of `goalApi.createGoal` are parameters.
- `src/services/api.ts` and `src/services/apiHelpers.ts` are not modelled. They are wrappers that log and rethrow.
- Browser: localStorage and `window.location` are a map and a string field, not I/O.
- `JSON.parse` is a parameter `string -> Option<Json>`; None stands for the SyntaxError it throws.
- Clock: the instant the schema captures and today's date are parameters, and every date is in UTC. `calculateEndDate` mixes local `getDate` with UTC `toISOString`; in time zones away from UTC the source can be off by one day, which this model does not capture.
- IsoDate.Parse: reads only strict `YYYY-MM-DD` strings naming a valid date. It treats every other string as an invalid Date. JavaScript engines also accept other formats, and some roll an impossible day such as 02-30 forward; neither is modelled.
- IsoDate.Format: years 10000 and later are written with a sign and six digits, as `toISOString` does. Such a result no longer parses, so the end-date lemmas require a start year of at most 9998.
- GoalValidation: dates compare by their day number. Yup's own date cast and its error messages are left out, as are Formik's touched and submit-count bookkeeping.
- GoalsList.GoalsListState.ChangeRowsPerPage: takes the page size as a number. The `parseInt` of the selected text, and its NaN case, are not modelled.
- GoalsList: `formatDate` depends on the locale and is left out. `handleEdit`, `handleDelete` and `handleView` only log, so they are left out.
- GoalsList: re-running `loadGoals` when the page or a filter changes is effect scheduling, which is left out. Each handler and each load is one atomic step.
- GoalsList.Normalised: a `total` is an integer. JSON numbers that are not integers are not modelled.
- Http.PropertyReadError: the TypeError's message is V8's wording; other engines word it differently.
- Lengths are counted in characters; JavaScript counts UTF-16 code units.
- Async ordering: two loads or submits racing each other are not modelled.
- `console.*` logging and the success `alert` are left out.
- AppRoutes.Match: paths match exactly. React Router's case-insensitive matching and trailing-slash handling are not modelled.
- The demo `App` function at the end of `src/hooks/useAuthRestore.ts` is not modelled. It only calls the hook.
- `src/types/api.ts` holds only type declarations and `src/app/store.tsx` only wiring, so neither is modelled.
