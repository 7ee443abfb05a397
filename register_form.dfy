/**
 * The sign-up form of src/features/auth/RegisterForm.tsx: two ordered checks, then
 * navigation to the login page. It calls no API and writes no storage.
 */
module RegisterForm {
  import opened Basics

  const FillAllFields := "Please fill all fields."
  const PasswordsDiffer := "Passwords do not match."

  /** The message a submission leaves; "" when both checks pass. */
  function SubmitError(name: string, email: string, mobile: string, password: string, confirm: string)
    : (e: string)
    ensures e == "" <==> name != "" && email != "" && mobile != "" && password != "" && confirm != ""
                         && password == confirm
    ensures (name == "" || email == "" || mobile == "" || password == "" || confirm == "")
            ==> e == FillAllFields
    ensures e == PasswordsDiffer <==> name != "" && email != "" && mobile != "" && password != ""
                                      && confirm != "" && password != confirm
  {
    if name == "" || email == "" || mobile == "" || password == "" || confirm == "" then FillAllFields
    else if password != confirm then PasswordsDiffer
    else ""
  }

  class Register {
    var name: string
    var email: string
    var mobile: string
    var password: string
    var confirmPassword: string
    var showPassword: bool
    var error: string

    constructor ()
      ensures name == email == mobile == password == confirmPassword == error == ""
      ensures !showPassword
    {
      name, email, mobile, password, confirmPassword := "", "", "", "", "";
      showPassword := false;
      error := "";
    }

    /**
     * `handleSubmit`: clear the error, stop at the first failing check, otherwise
     * navigate to `/login`. Only the error line changes.
     */
    method HandleSubmit() returns (navigateTo: Option<string>)
      modifies this`error
      ensures error == SubmitError(name, email, mobile, password, confirmPassword)
      ensures navigateTo == if error == "" then Some("/login") else None
    {
      error := "";
      if name == "" || email == "" || mobile == "" || password == "" || confirmPassword == "" {
        error := FillAllFields;
        return None;
      }
      if password != confirmPassword {
        error := PasswordsDiffer;
        return None;
      }
      navigateTo := Some("/login");
    }

    /** `handleClickShowPassword`. */
    method ToggleShowPassword()
      modifies this`showPassword
      ensures showPassword == !old(showPassword)
    {
      showPassword := !showPassword;
    }
  }
}
