/** The admin login form: sign-in, the admin-privilege check on the user's
    document, and the error classification that, unlike the user login
    form, shows an error's own message. */
module AdminLoginForm {
  import opened Common
  import opened Store
  import opened LoginForm

  const NotAdminText := "This account does not have admin privileges."

  /** The toast text of the admin login form. */
  function AdminDescription(e: Error): (d: string)
    ensures IsCredentialCode(e.code) ==> d == InvalidCredentialsText
    ensures !IsCredentialCode(e.code) && Truthy(e.message) ==> d == e.message.value
    ensures !IsCredentialCode(e.code) && !Truthy(e.message) ==> d == LoginProblemText
  {
    if IsCredentialCode(e.code) then InvalidCredentialsText
    else if Truthy(e.message) then e.message.value
    else LoginProblemText
  }

  /** The error thrown for a non-admin account has no code, so its own text
      is what the toast shows. */
  lemma NotAdminShown()
    ensures AdminDescription(Error(None, Some(NotAdminText))) == NotAdminText
  {
  }

  /** The two forms agree on credential codes and on errors without a
      message; they differ only where the admin form shows the message. */
  lemma AdminAgreesWithLogin(e: Error)
    ensures IsCredentialCode(e.code) || !Truthy(e.message) ==> AdminDescription(e) == LoginDescription(e)
    ensures AdminDescription(e) != LoginDescription(e) ==>
              !IsCredentialCode(e.code) && AdminDescription(e) == e.message.value
  {
  }

  class AdminLogin {
    var isSubmitting: bool

    constructor ()
      ensures !isSubmitting
    {
      isSubmitting := false;
    }

    /** `form.handleSubmit(onSubmit)`. `signIn` is the outcome of
        `signInWithEmailAndPassword`, `lookup` that of `getDoc` on the
        signed-in user's document, `signOut` that of `signOut`. Only an admin
        reaches `/admin`; any other account is signed out again. */
    method Submit(email: string, password: string, isEmail: string -> bool,
                  signIn: AuthResult, lookup: Outcome, signOut: Outcome, db: Database, auth: Auth)
      returns (result: LoginResult)
      modifies this, auth
      ensures LoginErrors(email, password, isEmail) != map[] ==>
                result == LoginInvalid(LoginErrors(email, password, isEmail))
                && isSubmitting == old(isSubmitting) && auth.currentUser == old(auth.currentUser)
      ensures LoginErrors(email, password, isEmail) == map[] ==> !isSubmitting
      ensures result == Navigated(Admin) <==>
                LoginErrors(email, password, isEmail) == map[] && signIn.SignedIn? && lookup.Done?
                && IsAdmin(db.users, signIn.uid)
      ensures result.Navigated? ==> result.route == Admin && auth.currentUser == Some(signIn.uid)
      ensures LoginErrors(email, password, isEmail) == map[] && signIn.AuthFailed? ==>
                result == LoginError(AdminDescription(signIn.error)) && auth.currentUser == old(auth.currentUser)
      ensures LoginErrors(email, password, isEmail) == map[] && signIn.SignedIn? && lookup.Failed? ==>
                result == LoginError(AdminDescription(lookup.error)) && auth.currentUser == Some(signIn.uid)
      ensures LoginErrors(email, password, isEmail) == map[] && signIn.SignedIn? && lookup.Done?
              && !IsAdmin(db.users, signIn.uid) && signOut.Done? ==>
                result == LoginError(NotAdminText) && auth.currentUser == None
      ensures LoginErrors(email, password, isEmail) == map[] && signIn.SignedIn? && lookup.Done?
              && !IsAdmin(db.users, signIn.uid) && signOut.Failed? ==>
                result == LoginError(AdminDescription(signOut.error)) && auth.currentUser == Some(signIn.uid)
    {
      var errs := LoginErrors(email, password, isEmail);
      if errs != map[] {
        return LoginInvalid(errs);
      }
      isSubmitting := true;
      var thrown: Option<Error> := None;
      match signIn {
        case AuthFailed(error) =>
          thrown := Some(error);
        case SignedIn(uid) =>
          auth.SignIn(uid);
          if lookup.Failed? {
            thrown := Some(lookup.error);
          } else if IsAdmin(db.users, uid) {
            result := Navigated(Admin);
          } else if signOut.Failed? {
            thrown := Some(signOut.error);
          } else {
            auth.SignOut();
            thrown := Some(Error(None, Some(NotAdminText)));
          }
      }
      if thrown.Some? {
        var error := thrown.value;
        var description := LoginProblemText;
        if IsCredentialCode(error.code) {
          description := InvalidCredentialsText;
        } else if Truthy(error.message) {
          description := error.message.value;
        }
        result := LoginError(description);
      }
      isSubmitting := false;
    }
  }
}
