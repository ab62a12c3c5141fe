/** The user login form: its two-field schema, which the admin login form
    shares, and the sign-in handler with its error classification. */
module LoginForm {
  import opened Common
  import opened Store

  datatype LoginField = EmailField | PasswordField

  const InvalidEmailText := "Please enter a valid email."
  const PasswordRequiredText := "Password is required."

  /** The messages the schema attaches to failing fields. `isEmail` stands
      for the schema library's email format check. */
  function LoginErrors(email: string, password: string, isEmail: string -> bool): (errs: map<LoginField, string>)
    ensures EmailField in errs <==> !isEmail(email)
    ensures PasswordField in errs <==> password == ""
    ensures EmailField in errs ==> errs[EmailField] == InvalidEmailText
    ensures PasswordField in errs ==> errs[PasswordField] == PasswordRequiredText
  {
    (if isEmail(email) then map[] else map[EmailField := InvalidEmailText])
    + (if |password| >= 1 then map[] else map[PasswordField := PasswordRequiredText])
  }

  const InvalidCredentialsText := "Invalid email or password. Please check your credentials and try again."
  const LoginProblemText := "There was a problem with your login. Please try again."

  /** The Firebase codes both login forms report as bad credentials. */
  predicate IsCredentialCode(code: Option<string>) {
    code == Some("auth/invalid-credential") || code == Some("auth/user-not-found")
    || code == Some("auth/wrong-password")
  }

  /** The toast text of the user login form. */
  function LoginDescription(e: Error): (d: string)
    ensures IsCredentialCode(e.code) ==> d == InvalidCredentialsText
    ensures !IsCredentialCode(e.code) ==> d == LoginProblemText
  {
    if IsCredentialCode(e.code) then InvalidCredentialsText else LoginProblemText
  }

  /** The user login form never shows the error's own message. */
  lemma LoginIgnoresMessage(e: Error, m: Option<string>)
    ensures LoginDescription(e.(message := m)) == LoginDescription(e)
    ensures LoginDescription(e) == InvalidCredentialsText || LoginDescription(e) == LoginProblemText
  {
  }

  /** What a press of the submit button ends with. */
  datatype LoginResult =
    | LoginInvalid(errors: map<LoginField, string>)   // the schema stopped it
    | Navigated(route: Route)                          // `router.push`
    | LoginError(description: string)                  // the error toast

  class Login {
    var isSubmitting: bool

    constructor ()
      ensures !isSubmitting
    {
      isSubmitting := false;
    }

    /** `form.handleSubmit(onSubmit)`: the schema runs first; `signIn` is the
        outcome of `signInWithEmailAndPassword`. */
    method Submit(email: string, password: string, isEmail: string -> bool, signIn: AuthResult, auth: Auth)
      returns (result: LoginResult)
      modifies this, auth
      ensures LoginErrors(email, password, isEmail) != map[] ==>
                result == LoginInvalid(LoginErrors(email, password, isEmail))
                && isSubmitting == old(isSubmitting) && auth.currentUser == old(auth.currentUser)
      ensures LoginErrors(email, password, isEmail) == map[] ==> !isSubmitting
      ensures LoginErrors(email, password, isEmail) == map[] && signIn.SignedIn? ==>
                result == Navigated(Dashboard) && auth.currentUser == Some(signIn.uid)
      ensures LoginErrors(email, password, isEmail) == map[] && signIn.AuthFailed? ==>
                result == LoginError(LoginDescription(signIn.error)) && auth.currentUser == old(auth.currentUser)
    {
      var errs := LoginErrors(email, password, isEmail);
      if errs != map[] {
        return LoginInvalid(errs);
      }
      isSubmitting := true;
      match signIn {
        case SignedIn(uid) =>
          auth.SignIn(uid);
          result := Navigated(Dashboard);
        case AuthFailed(error) =>
          var description := LoginProblemText;
          if IsCredentialCode(error.code) {
            description := InvalidCredentialsText;
          }
          result := LoginError(description);
      }
      isSubmitting := false;
    }
  }
}
