/** The password step of a submission that asks for a login: the password
    schema, and the write sequence that creates the account, its user
    document and the submission. */
module CreatePasswordForm {
  import opened Common
  import opened Store
  import opened FormEaseForm

  datatype PasswordField = Password | ConfirmPassword

  const MinPasswordLength := 6
  const TooShortText := "Password must be at least 6 characters."
  const MismatchText := "Passwords don't match"

  /** The schema's findings. The length rule and the match refinement are
      reported independently: both fields are strings, so the refinement
      runs even when the length rule fails. A mismatch is reported on
      `confirmPassword`. */
  function PasswordErrors(password: string, confirmPassword: string): (errs: map<PasswordField, string>)
    ensures Password in errs <==> |password| < MinPasswordLength
    ensures ConfirmPassword in errs <==> password != confirmPassword
    ensures Password in errs ==> errs[Password] == TooShortText
    ensures ConfirmPassword in errs ==> errs[ConfirmPassword] == MismatchText
  {
    (if |password| >= MinPasswordLength then map[] else map[Password := TooShortText])
    + (if password == confirmPassword then map[] else map[ConfirmPassword := MismatchText])
  }

  /** A password pair passes exactly when it is long enough and repeated. */
  lemma PasswordAccepted(password: string, confirmPassword: string)
    ensures PasswordErrors(password, confirmPassword) == map[] <==>
              |password| >= MinPasswordLength && password == confirmPassword
  {
  }

  const InUseCode := "auth/email-already-in-use"
  const InUseText := "This email address is already in use. Please use a different email or log in."
  const AccountProblemText := "There was a problem creating your account. Please try again."

  /** The toast text after a failure anywhere in the sequence. */
  function AccountErrorText(e: Error): (m: string)
    ensures e.code == Some(InUseCode) ==> m == InUseText
    ensures e.code != Some(InUseCode) && Truthy(e.message) ==> m == e.message.value
    ensures e.code != Some(InUseCode) && !Truthy(e.message) ==> m == AccountProblemText
  {
    if e.code == Some(InUseCode) then InUseText
    else if Truthy(e.message) then e.message.value
    else AccountProblemText
  }

  /** The in-use code wins over any message the error carries. */
  lemma InUseIgnoresMessage(e: Error, m: Option<string>)
    requires e.code == Some(InUseCode)
    ensures AccountErrorText(e.(message := m)) == InUseText
  {
  }

  /** The user document written for a new account. */
  function NewUserDoc(email: string): (d: UserDoc)
    ensures d.email == Some(email) && d.isAdmin == Some(false)
  {
    UserDoc(Some(email), Some(false))
  }

  /** A freshly created account is never an admin. */
  lemma NewAccountNotAdmin(users: map<Uid, UserDoc>, uid: Uid, email: string)
    ensures !IsAdmin(users[uid := NewUserDoc(email)], uid)
  {
  }

  datatype PasswordResult =
    | PasswordInvalid(errors: map<PasswordField, string>)   // the schema stopped it
    | AccountCreated                                         // `onPasswordSet()` was called
    | AccountError(message: string)                          // the error toast

  /** The component, with its `email` and `formData` props. */
  class PasswordForm {
    const email: string
    const formData: FormValues
    var isSubmitting: bool

    constructor (email: string, formData: FormValues)
      ensures this.email == email && this.formData == formData && !isSubmitting
    {
      this.email, this.formData := email, formData;
      isSubmitting := false;
    }

    /** `form.handleSubmit(onSubmit)`. `create` is the outcome of
        `createUserWithEmailAndPassword`, which also signs the new account
        in, `userWrite` that of `setDoc` on the user document,
        `submissionWrite` that of `addDoc`; `newId` is the id `addDoc` picks
        and `now` the time of `new Date()`. The steps run in order and the
        first failure stops the rest; nothing undoes the earlier ones. */
    method Submit(password: string, confirmPassword: string, db: Database, auth: Auth,
                  create: AuthResult, userWrite: Outcome, now: int, newId: DocId, submissionWrite: Outcome)
      returns (result: PasswordResult)
      requires db.Valid() && newId !in db.submissions
      modifies this, db, auth
      ensures db.Valid()
      ensures result != AccountCreated ==> db.submissions == old(db.submissions) && db.order == old(db.order)
      ensures PasswordErrors(password, confirmPassword) != map[] ==>
                result == PasswordInvalid(PasswordErrors(password, confirmPassword)) && isSubmitting == old(isSubmitting)
      ensures PasswordErrors(password, confirmPassword) == map[] ==> !isSubmitting
      ensures PasswordErrors(password, confirmPassword) != map[] || create.AuthFailed? ==>
                db.users == old(db.users) && db.submissions == old(db.submissions) && db.order == old(db.order)
                && auth.currentUser == old(auth.currentUser)
      ensures PasswordErrors(password, confirmPassword) == map[] && create.SignedIn? ==>
                auth.currentUser == Some(create.uid)
      ensures PasswordErrors(password, confirmPassword) == map[] && create.AuthFailed? ==>
                result == AccountError(AccountErrorText(create.error))
      ensures PasswordErrors(password, confirmPassword) == map[] && create.SignedIn? && userWrite.Failed? ==>
                result == AccountError(AccountErrorText(userWrite.error))
                && db.users == old(db.users) && db.submissions == old(db.submissions)
      ensures PasswordErrors(password, confirmPassword) == map[] && create.SignedIn? && userWrite.Done? ==>
                db.users == old(db.users)[create.uid := NewUserDoc(email)]
      ensures PasswordErrors(password, confirmPassword) == map[] && create.SignedIn? && userWrite.Done?
              && submissionWrite.Failed? ==>
                result == AccountError(AccountErrorText(submissionWrite.error)) && db.submissions == old(db.submissions)
      ensures result == AccountCreated <==>
                PasswordErrors(password, confirmPassword) == map[] && create.SignedIn? && userWrite.Done?
                && submissionWrite.Done?
      ensures result == AccountCreated ==>
                db.submissions == old(db.submissions)[newId := ToSubmissionDoc(formData, now, Some(create.uid))]
                && db.order == old(db.order) + [newId]
    {
      var errs := PasswordErrors(password, confirmPassword);
      if errs != map[] {
        return PasswordInvalid(errs);
      }
      isSubmitting := true;
      var thrown: Option<Error> := None;
      match create {
        case AuthFailed(error) =>
          thrown := Some(error);
        case SignedIn(uid) =>
          auth.SignIn(uid);
          if userWrite.Failed? {
            thrown := Some(userWrite.error);
          } else {
            db.SetUser(uid, NewUserDoc(email));
            if submissionWrite.Failed? {
              thrown := Some(submissionWrite.error);
            } else {
              db.Add(newId, ToSubmissionDoc(formData, now, Some(uid)));
              result := AccountCreated;
            }
          }
      }
      if thrown.Some? {
        var error := thrown.value;
        var errorMessage := AccountProblemText;
        if error.code == Some(InUseCode) {
          errorMessage := InUseText;
        } else if Truthy(error.message) {
          errorMessage := error.message.value;
        }
        result := AccountError(errorMessage);
      }
      isSubmitting := false;
    }
  }
}
