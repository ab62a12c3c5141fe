/** The form that edits a stored submission: its default values, its
    schema, and the update it writes. */
module EditSubmissionForm {
  import opened Common
  import opened Store
  import opened FormEaseForm

  /** The form's values; `favoriteTimeOfDay` may be undefined until chosen. */
  datatype EditValues = EditValues(
    firstName: string,
    surname: string,
    address: string,
    postcode: string,
    email: string,
    favoriteTimeOfDay: Option<string>)

  /** A form value as an optional string. */
  function EditValue(v: EditValues, f: Field): Option<string> {
    match f
    case FirstName => Some(v.firstName)
    case Surname => Some(v.surname)
    case Address => Some(v.address)
    case Postcode => Some(v.postcode)
    case Email => Some(v.email)
    case FavoriteTimeOfDay => v.favoriteTimeOfDay
  }

  /** `defaultValues`: each text field is the submission's value, or `""`
      when that is missing or empty (or there is no submission); the time of
      day is copied as it is. */
  function Defaults(submission: Option<Submission>): (v: EditValues)
    ensures forall f :: f != FavoriteTimeOfDay ==>
              EditValue(v, f) == if submission.Some? && Truthy(DocValue(submission.value.doc, f))
                                 then DocValue(submission.value.doc, f) else Some("")
    ensures v.favoriteTimeOfDay == if submission.Some? then submission.value.doc.favoriteTimeOfDay else None
  {
    match submission
    case None => EditValues("", "", "", "", "", None)
    case Some(s) =>
      EditValues(OrEmpty(s.doc.firstName), OrEmpty(s.doc.surname), OrEmpty(s.doc.address),
                 OrEmpty(s.doc.postcode), OrEmpty(s.doc.email), s.doc.favoriteTimeOfDay)
  }

  const FirstNameRequired := "First name is required."
  const SurnameRequired := "Surname is required."
  const AddressRequired := "Address is required."
  const PostcodeRequired := "Postcode is required."
  const InvalidEmailAddress := "Invalid email address."
  const TimeRequired := "Please select a time of day."

  /** The message the schema gives for a failing field, if it fails. The
      four name and address fields must be non-empty, the email must pass
      `isEmail`, and the time of day must be present but may be any string. */
  function FieldError(v: EditValues, f: Field, isEmail: string -> bool): Option<string> {
    match f
    case FirstName => if |v.firstName| >= 1 then None else Some(FirstNameRequired)
    case Surname => if |v.surname| >= 1 then None else Some(SurnameRequired)
    case Address => if |v.address| >= 1 then None else Some(AddressRequired)
    case Postcode => if |v.postcode| >= 1 then None else Some(PostcodeRequired)
    case Email => if isEmail(v.email) then None else Some(InvalidEmailAddress)
    case FavoriteTimeOfDay => if v.favoriteTimeOfDay.Some? then None else Some(TimeRequired)
  }

  /** The schema passes exactly when no field fails. */
  predicate Passes(v: EditValues, isEmail: string -> bool) {
    forall f :: FieldError(v, f, isEmail).None?
  }

  /** Which values the schema accepts, field by field. */
  lemma {:induction false} PassesIff(v: EditValues, isEmail: string -> bool)
    ensures Passes(v, isEmail) <==>
              v.firstName != "" && v.surname != "" && v.address != "" && v.postcode != ""
              && isEmail(v.email) && v.favoriteTimeOfDay.Some?
  {
    if Passes(v, isEmail) {
      assert FieldError(v, FirstName, isEmail).None?;
      assert FieldError(v, Surname, isEmail).None?;
      assert FieldError(v, Address, isEmail).None?;
      assert FieldError(v, Postcode, isEmail).None?;
      assert FieldError(v, Email, isEmail).None?;
      assert FieldError(v, FavoriteTimeOfDay, isEmail).None?;
    }
  }

  /** The message each failing field shows. */
  lemma FieldMessages(v: EditValues, isEmail: string -> bool)
    ensures v.firstName == "" <==> FieldError(v, FirstName, isEmail) == Some(FirstNameRequired)
    ensures v.surname == "" <==> FieldError(v, Surname, isEmail) == Some(SurnameRequired)
    ensures v.address == "" <==> FieldError(v, Address, isEmail) == Some(AddressRequired)
    ensures v.postcode == "" <==> FieldError(v, Postcode, isEmail) == Some(PostcodeRequired)
    ensures !isEmail(v.email) <==> FieldError(v, Email, isEmail) == Some(InvalidEmailAddress)
    ensures v.favoriteTimeOfDay.None? <==> FieldError(v, FavoriteTimeOfDay, isEmail) == Some(TimeRequired)
  {
  }

  /** Any string is accepted as the time of day: no list of values is
      enforced. */
  lemma AnyTimeAccepted(v: EditValues, isEmail: string -> bool, t: string)
    ensures FieldError(v.(favoriteTimeOfDay := Some(t)), FavoriteTimeOfDay, isEmail) == None
  {
  }

  /** `updateDoc(ref, values)`: the six fields are overwritten, `createdAt`
      and `userId` are kept. */
  function ApplyEdit(d: SubmissionDoc, v: EditValues): (e: SubmissionDoc)
    ensures forall f :: DocValue(e, f) == EditValue(v, f)
    ensures e.createdAt == d.createdAt && e.userId == d.userId
  {
    d.(firstName := Some(v.firstName), surname := Some(v.surname), address := Some(v.address),
       postcode := Some(v.postcode), email := Some(v.email), favoriteTimeOfDay := v.favoriteTimeOfDay)
  }

  /** Opening the form on an edited submission shows the values just saved. */
  lemma DefaultsAfterEdit(id: DocId, d: SubmissionDoc, v: EditValues)
    ensures Defaults(Some(Submission(id, ApplyEdit(d, v)))) == v
  {
  }

  /** Opening the form on a submission saved from the main form shows that
      form's values. */
  lemma DefaultsOfSaved(id: DocId, values: FormValues, createdAt: int, userId: Option<Uid>)
    ensures Defaults(Some(Submission(id, ToSubmissionDoc(values, createdAt, userId)))) ==
              EditValues(values.firstName, values.surname, values.address, values.postcode,
                         values.email, values.favoriteTimeOfDay)
  {
  }

  datatype EditResult =
    | EditRejected    // the schema stopped it; the field messages are `FieldError`
    | Saved           // the update was written and `onSuccess()` called
    | SaveError       // the error toast

  /** The component, with its `submission` prop. */
  class EditForm {
    const submission: Option<Submission>
    var isSubmitting: bool

    constructor (submission: Option<Submission>)
      ensures this.submission == submission && !isSubmitting
    {
      this.submission := submission;
      isSubmitting := false;
    }

    /** `form.handleSubmit(onSubmit)`. `write` is the outcome of `updateDoc`;
        an update of a missing document fails, and so does one without a
        submission, whose id cannot be read. `onSuccess` is called once
        exactly when the save goes through. */
    method Submit(values: EditValues, isEmail: string -> bool, db: Database, write: Outcome)
      returns (result: EditResult, onSuccessCalls: nat)
      requires db.Valid()
      modifies this, db
      ensures db.Valid() && db.users == old(db.users) && db.order == old(db.order)
      ensures !Passes(values, isEmail) ==>
                result == EditRejected && isSubmitting == old(isSubmitting) && db.submissions == old(db.submissions)
      ensures Passes(values, isEmail) ==> !isSubmitting
      ensures result == Saved <==>
                Passes(values, isEmail) && submission.Some? && submission.value.id in old(db.submissions) && write.Done?
      ensures result == Saved ==>
                db.submissions == old(db.submissions)[submission.value.id :=
                                    ApplyEdit(old(db.submissions)[submission.value.id], values)]
      ensures result != Saved ==> db.submissions == old(db.submissions)
      ensures Passes(values, isEmail) && result != Saved ==> result == SaveError
      ensures onSuccessCalls == if result == Saved then 1 else 0
    {
      onSuccessCalls := 0;
      if !Passes(values, isEmail) {
        return EditRejected, 0;
      }
      isSubmitting := true;
      if submission.Some? && submission.value.id in db.submissions && write.Done? {
        var id := submission.value.id;
        db.Replace(id, ApplyEdit(db.submissions[id], values));
        onSuccessCalls := onSuccessCalls + 1;
        result := Saved;
      } else {
        result := SaveError;
      }
      isSubmitting := false;
    }
  }
}
