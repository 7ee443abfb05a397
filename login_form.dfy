/**
 * The login form of src/features/auth/LoginForm.tsx. Submitting dispatches a fixed
 * user and navigates to the dashboard: no credential is checked, no API is called,
 * and nothing is written to storage.
 */
module LoginForm {
  import opened Json
  import opened Session

  /** The identity `handleLogin` dispatches. */
  const SubmittedUser := UserObject("John Doe", "some-id")

  /** The session after `handleLogin`. */
  function AfterLogin(s: SessionState): (r: SessionState)
    ensures Truthy(r.user) && r.location == "/dashboard"
    ensures r.user == Obj([("name", Str("John Doe")), ("id", Str("some-id"))])
    ensures r.storage == s.storage
  {
    Login(s, SubmittedUser).(location := "/dashboard")
  }

  class Form {
    var email: string
    var password: string
    var showPassword: bool

    constructor ()
      ensures email == "" && password == "" && !showPassword
    {
      email, password := "", "";
      showPassword := false;
    }

    /** `handleLogin`: whatever the fields hold, log in the fixed user and go to the dashboard. */
    method HandleLogin(app: AppState)
      modifies app`user, app`location
      ensures app.State() == AfterLogin(old(app.State()))
    {
      app.DispatchLogin(SubmittedUser);
      app.location := "/dashboard";
    }

    /** `handleClickShowPassword`. */
    method ToggleShowPassword()
      modifies this`showPassword
      ensures showPassword == !old(showPassword)
    {
      showPassword := !showPassword;
    }
  }
}
