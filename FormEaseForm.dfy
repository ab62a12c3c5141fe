/** The new-submission form: the upload gate, the merge of extracted details
    into the form, the submit step machine and the shape of the saved
    record. */
module FormEaseForm {
  import opened Common
  import opened Store

  const PdfType := "application/pdf"
  const TextType := "text/plain"
  /** 5 MiB */
  const MaxUploadBytes: nat := 5 * 1024 * 1024

  /** The part of a browser `File` the gate looks at. */
  datatype FileInfo = FileInfo(mimeType: string, size: nat)

  datatype Gate = Accepted | WrongType | TooLarge

  predicate AllowedType(mimeType: string) {
    mimeType == PdfType || mimeType == TextType
  }

  /** The two guards of `handleFileChange`, type first. */
  function CheckFile(f: FileInfo): (g: Gate)
    ensures g == Accepted <==> AllowedType(f.mimeType) && f.size <= MaxUploadBytes
    ensures !AllowedType(f.mimeType) ==> g == WrongType
    ensures AllowedType(f.mimeType) && f.size > MaxUploadBytes ==> g == TooLarge
  {
    if f.mimeType != PdfType && f.mimeType != TextType then WrongType
    else if f.size > 5 * 1024 * 1024 then TooLarge
    else Accepted
  }

  /** A file of exactly 5 MiB passes and one byte more does not; a file of
      the wrong type is reported as such whatever its size. */
  lemma CheckFileBoundaries(size: nat)
    ensures CheckFile(FileInfo(PdfType, 5242880)) == Accepted
    ensures CheckFile(FileInfo(TextType, 5242881)) == TooLarge
    ensures CheckFile(FileInfo("image/png", size)) == WrongType
  {
  }

  /** The form's values (`FormData`); `favoriteTimeOfDay` starts undefined. */
  datatype FormValues = FormValues(
    firstName: string,
    surname: string,
    address: string,
    postcode: string,
    email: string,
    favoriteTimeOfDay: Option<string>,
    createLogin: bool)

  /** `defaultValues`, which `form.reset()` restores. */
  const DefaultValues := FormValues("", "", "", "", "", None, false)

  /** The extractor's output schema: six optional strings. Nothing checks
      that `favoriteTimeOfDay` is one of the four times of day. */
  datatype ExtractedRecord = ExtractedRecord(
    firstName: Option<string>,
    surname: Option<string>,
    address: Option<string>,
    postcode: Option<string>,
    email: Option<string>,
    favoriteTimeOfDay: Option<string>)

  /** `Object.keys(extractedData).length === 0` */
  predicate NoKeys(r: ExtractedRecord) {
    r.firstName.None? && r.surname.None? && r.address.None? &&
    r.postcode.None? && r.email.None? && r.favoriteTimeOfDay.None?
  }

  /** What `await extractDetails(...)` gives: a value, possibly null, or a
      thrown error. */
  datatype Extraction = Returned(data: Option<ExtractedRecord>) | Threw(error: Error)

  datatype Field = FirstName | Surname | Address | Postcode | Email | FavoriteTimeOfDay

  function Extracted(r: ExtractedRecord, f: Field): Option<string> {
    match f
    case FirstName => r.firstName
    case Surname => r.surname
    case Address => r.address
    case Postcode => r.postcode
    case Email => r.email
    case FavoriteTimeOfDay => r.favoriteTimeOfDay
  }

  /** A form value as an optional string (only the time of day can be unset). */
  function Value(v: FormValues, f: Field): Option<string> {
    match f
    case FirstName => Some(v.firstName)
    case Surname => Some(v.surname)
    case Address => Some(v.address)
    case Postcode => Some(v.postcode)
    case Email => Some(v.email)
    case FavoriteTimeOfDay => v.favoriteTimeOfDay
  }

  /** The `form.setValue` calls the merge makes, in order: one for each
      field whose extracted value is truthy. */
  function Writes(r: ExtractedRecord): (w: seq<Field>)
    ensures forall f :: f in w <==> Truthy(Extracted(r, f))
    ensures 0 <= |w| <= 6
  {
    (if Truthy(r.firstName) then [FirstName] else []) +
    (if Truthy(r.surname) then [Surname] else []) +
    (if Truthy(r.address) then [Address] else []) +
    (if Truthy(r.postcode) then [Postcode] else []) +
    (if Truthy(r.email) then [Email] else []) +
    (if Truthy(r.favoriteTimeOfDay) then [FavoriteTimeOfDay] else [])
  }

  /** No field is written twice, so the count of writes is the number of
      fields with a truthy extracted value. */
  lemma {:induction false} WritesDistinct(r: ExtractedRecord)
    ensures NoDuplicates(Writes(r))
  {
    var w1 := if Truthy(r.firstName) then [FirstName] else [];
    var w2 := w1 + if Truthy(r.surname) then [Surname] else [];
    AppendFresh(w1, Truthy(r.surname), Surname);
    var w3 := w2 + if Truthy(r.address) then [Address] else [];
    AppendFresh(w2, Truthy(r.address), Address);
    var w4 := w3 + if Truthy(r.postcode) then [Postcode] else [];
    AppendFresh(w3, Truthy(r.postcode), Postcode);
    var w5 := w4 + if Truthy(r.email) then [Email] else [];
    AppendFresh(w4, Truthy(r.email), Email);
    AppendFresh(w5, Truthy(r.favoriteTimeOfDay), FavoriteTimeOfDay);
  }

  /** One write for each truthy field. */
  lemma WritesLength(r: ExtractedRecord)
    ensures |Writes(r)| == Flag(Truthy(r.firstName)) + Flag(Truthy(r.surname)) + Flag(Truthy(r.address))
                           + Flag(Truthy(r.postcode)) + Flag(Truthy(r.email)) + Flag(Truthy(r.favoriteTimeOfDay))
  {
  }

  function Flag(b: bool): nat {
    if b then 1 else 0
  }

  lemma AppendFresh(w: seq<Field>, b: bool, f: Field)
    requires NoDuplicates(w) && f !in w
    ensures NoDuplicates(w + if b then [f] else [])
  {
  }

  /** The six guarded `form.setValue` calls. */
  function Merge(v: FormValues, r: ExtractedRecord): (m: FormValues)
    ensures forall f :: Value(m, f) == if Truthy(Extracted(r, f)) then Extracted(r, f) else Value(v, f)
    ensures m.createLogin == v.createLogin
  {
    FormValues(
      if Truthy(r.firstName) then r.firstName.value else v.firstName,
      if Truthy(r.surname) then r.surname.value else v.surname,
      if Truthy(r.address) then r.address.value else v.address,
      if Truthy(r.postcode) then r.postcode.value else v.postcode,
      if Truthy(r.email) then r.email.value else v.email,
      if Truthy(r.favoriteTimeOfDay) then r.favoriteTimeOfDay else v.favoriteTimeOfDay,
      v.createLogin)
  }

  /** Merging the same record a second time changes nothing more. */
  lemma MergeIdempotent(v: FormValues, r: ExtractedRecord)
    ensures Merge(Merge(v, r), r) == Merge(v, r)
  {
  }

  /** Two form states that differ only in a field the merge writes end up
      equal: the merge result depends on the old form only through the
      fields it leaves alone. */
  lemma {:induction false} MergeOverwrites(v: FormValues, u: FormValues, r: ExtractedRecord)
    requires v.createLogin == u.createLogin
    requires forall f :: f !in Writes(r) ==> Value(v, f) == Value(u, f)
    ensures Merge(v, r) == Merge(u, r)
  {
    assert Value(v, FirstName) == Value(u, FirstName) || FirstName in Writes(r);
    assert Value(v, Surname) == Value(u, Surname) || Surname in Writes(r);
    assert Value(v, Address) == Value(u, Address) || Address in Writes(r);
    assert Value(v, Postcode) == Value(u, Postcode) || Postcode in Writes(r);
    assert Value(v, Email) == Value(u, Email) || Email in Writes(r);
    assert Value(v, FavoriteTimeOfDay) == Value(u, FavoriteTimeOfDay) || FavoriteTimeOfDay in Writes(r);
  }

  /** A record with no truthy value leaves the form as it was. */
  lemma MergeNothingWritten(v: FormValues, r: ExtractedRecord)
    requires Writes(r) == []
    ensures Merge(v, r) == v
  {
  }

  /** A keyless record would write nothing; the handler stops before the
      merge for it anyway. */
  lemma NoKeysWritesNothing(v: FormValues, r: ExtractedRecord)
    requires NoKeys(r)
    ensures Writes(r) == [] && Merge(v, r) == v
  {
  }

  /** A record whose six keys are all present but empty is not "no keys":
      it reaches the merge and writes nothing. */
  lemma AllEmptyRecord()
    ensures var r := ExtractedRecord(Some(""), Some(""), Some(""), Some(""), Some(""), Some(""));
            !NoKeys(r) && Writes(r) == []
  {
  }

  /** The saved record: the form values without `createLogin`, with
      `createdAt`, and with `userId` only when a user is known. */
  function ToSubmissionDoc(values: FormValues, createdAt: int, userId: Option<Uid>): (d: SubmissionDoc)
    ensures forall f :: f != FavoriteTimeOfDay ==> DocValue(d, f) == Value(values, f)
    ensures d.favoriteTimeOfDay == values.favoriteTimeOfDay
    ensures d.createdAt == Some(createdAt) && d.userId == userId
  {
    SubmissionDoc(Some(values.firstName), Some(values.surname), Some(values.address),
                  Some(values.postcode), Some(values.email), values.favoriteTimeOfDay,
                  Some(createdAt), userId)
  }

  function DocValue(d: SubmissionDoc, f: Field): Option<string> {
    match f
    case FirstName => d.firstName
    case Surname => d.surname
    case Address => d.address
    case Postcode => d.postcode
    case Email => d.email
    case FavoriteTimeOfDay => d.favoriteTimeOfDay
  }

  /** `createLogin` is stripped: it has no influence on the saved record. */
  lemma CreateLoginNotSaved(values: FormValues, b: bool, createdAt: int, userId: Option<Uid>)
    ensures ToSubmissionDoc(values.(createLogin := b), createdAt, userId) == ToSubmissionDoc(values, createdAt, userId)
  {
  }

  datatype Step = FormStep | CreatePasswordStep | SuccessStep

  /** What `handleFileChange` reports to the user. */
  datatype UploadResult =
    | NoFile
    | InvalidFileType
    | FileTooLarge
    | FileReadError
    | ExtractionError
    | NothingFound
    | Prefilled(count: nat)

  /** What the component renders. */
  datatype Screen = FormScreen | PasswordScreen(email: string, formData: FormValues) | SuccessScreen(accountCreated: bool)

  class FormEase {
    var form: FormValues
    var step: Step
    var submittedData: Option<FormValues>
    var isSubmitting: bool
    var isExtracting: bool
    var currentUser: Option<Uid>

    /** Past the form step there is always submitted data to show. */
    ghost predicate Valid()
      reads this
    {
      step != FormStep ==> submittedData.Some?
    }

    constructor ()
      ensures Valid()
      ensures form == DefaultValues && step == FormStep && submittedData == None
      ensures !isSubmitting && !isExtracting && currentUser == None
    {
      form, step, submittedData := DefaultValues, FormStep, None;
      isSubmitting, isExtracting, currentUser := false, false, None;
    }

    /** The `onAuthStateChanged` subscription (an undefined or null user is
        `None`). */
    method SetCurrentUser(user: Option<Uid>)
      modifies this`currentUser
      ensures currentUser == user
    {
      currentUser := user;
    }

    /** The render choice: the password form, the success screen, or the
        form itself. */
    function CurrentScreen(): (s: Screen)
      reads this
      requires Valid()
      ensures step == FormStep <==> s == FormScreen
      ensures step == CreatePasswordStep ==> s == PasswordScreen(submittedData.value.email, submittedData.value)
      ensures step == SuccessStep ==> s == SuccessScreen(submittedData.value.createLogin)
    {
      if step == CreatePasswordStep && submittedData.Some? then PasswordScreen(submittedData.value.email, submittedData.value)
      else if step == SuccessStep && submittedData.Some? then SuccessScreen(submittedData.value.createLogin)
      else FormScreen
    }

    /** The six guarded `form.setValue` writes and the `fieldsSet` counter. */
    method ApplyExtraction(r: ExtractedRecord) returns (fieldsSet: nat)
      modifies this`form
      ensures form == Merge(old(form), r)
      ensures fieldsSet == |Writes(r)|
    {
      ghost var v := form;
      fieldsSet := 0;
      if Truthy(r.firstName) { form := form.(firstName := r.firstName.value); fieldsSet := fieldsSet + 1; }
      assert form == v.(firstName := form.firstName) && fieldsSet == Flag(Truthy(r.firstName));
      if Truthy(r.surname) { form := form.(surname := r.surname.value); fieldsSet := fieldsSet + 1; }
      assert form == v.(firstName := form.firstName, surname := form.surname)
        && fieldsSet == Flag(Truthy(r.firstName)) + Flag(Truthy(r.surname));
      if Truthy(r.address) { form := form.(address := r.address.value); fieldsSet := fieldsSet + 1; }
      assert form == v.(firstName := form.firstName, surname := form.surname, address := form.address)
        && fieldsSet == Flag(Truthy(r.firstName)) + Flag(Truthy(r.surname)) + Flag(Truthy(r.address));
      if Truthy(r.postcode) { form := form.(postcode := r.postcode.value); fieldsSet := fieldsSet + 1; }
      assert form == v.(firstName := form.firstName, surname := form.surname, address := form.address,
                        postcode := form.postcode)
        && fieldsSet == Flag(Truthy(r.firstName)) + Flag(Truthy(r.surname)) + Flag(Truthy(r.address))
                        + Flag(Truthy(r.postcode));
      if Truthy(r.email) { form := form.(email := r.email.value); fieldsSet := fieldsSet + 1; }
      if Truthy(r.favoriteTimeOfDay) { form := form.(favoriteTimeOfDay := r.favoriteTimeOfDay); fieldsSet := fieldsSet + 1; }
      WritesLength(r);
    }

    /** `handleFileChange`: the gate, the file read (`readOk` tells whether
        `onload` or `onerror` fired), the extractor's outcome and the merge.
        `extractorCalled` tells whether `extractDetails` was invoked. */
    method HandleFileChange(file: Option<FileInfo>, readOk: bool, extraction: Extraction)
      returns (result: UploadResult, extractorCalled: bool)
      modifies this`form, this`isExtracting
      ensures extractorCalled <==> file.Some? && CheckFile(file.value) == Accepted && readOk
      ensures file.None? ==> result == NoFile
      ensures file.Some? && CheckFile(file.value) == WrongType ==> result == InvalidFileType
      ensures file.Some? && CheckFile(file.value) == TooLarge ==> result == FileTooLarge
      ensures file.Some? && CheckFile(file.value) == Accepted ==> !isExtracting
      ensures file.Some? && CheckFile(file.value) == Accepted && !readOk ==> result == FileReadError
      ensures !extractorCalled ==> form == old(form)
      ensures file.None? || CheckFile(file.value) != Accepted ==> isExtracting == old(isExtracting)
      ensures extractorCalled ==>
        match extraction
        case Threw(_) => result == ExtractionError && form == old(form)
        case Returned(None) => result == NothingFound && form == old(form)
        case Returned(Some(r)) =>
          if NoKeys(r) then result == NothingFound && form == old(form)
          else result == Prefilled(|Writes(r)|) && form == Merge(old(form), r)
    {
      extractorCalled := false;
      if file.None? {
        return NoFile, false;
      }
      var f := file.value;
      if f.mimeType != PdfType && f.mimeType != TextType {
        return InvalidFileType, false;
      }
      if f.size > 5 * 1024 * 1024 {
        return FileTooLarge, false;
      }
      isExtracting := true;
      if !readOk {
        isExtracting := false;
        return FileReadError, false;
      }
      extractorCalled := true;
      match extraction {
        case Threw(_) =>
          result := ExtractionError;
        case Returned(data) =>
          if data.None? || NoKeys(data.value) {
            result := NothingFound;
          } else {
            var fieldsSet := ApplyExtraction(data.value);
            result := Prefilled(fieldsSet);
          }
      }
      isExtracting := false;
    }

    /** `onSubmit`: either hand over to the password step, or save the record
        (`write` is the outcome of `addDoc`, `newId` the id it assigns, `now`
        the value of `new Date()`). */
    method Submit(values: FormValues, db: Database, now: int, newId: DocId, write: Outcome)
      requires Valid() && db.Valid() && newId !in db.submissions
      modifies this`step, this`submittedData, this`isSubmitting, db
      ensures Valid() && db.Valid() && !isSubmitting
      ensures values.createLogin && currentUser.None? ==>
        && step == CreatePasswordStep && submittedData == Some(values)
        && db.submissions == old(db.submissions) && db.order == old(db.order)
      ensures !(values.createLogin && currentUser.None?) && write.Done? ==>
        && db.submissions == old(db.submissions)[newId := ToSubmissionDoc(values, now, currentUser)]
        && db.order == old(db.order) + [newId]
        && step == SuccessStep && submittedData == Some(values)
      ensures !(values.createLogin && currentUser.None?) && write.Failed? ==>
        && db.submissions == old(db.submissions) && db.order == old(db.order)
        && step == old(step) && submittedData == old(submittedData)
      ensures db.users == old(db.users)
    {
      isSubmitting := true;
      if values.createLogin && currentUser.None? {
        submittedData := Some(values);
        step := CreatePasswordStep;
      } else if write.Done? {
        var dataToSave := ToSubmissionDoc(values, now, currentUser);
        db.Add(newId, dataToSave);
        submittedData := Some(values);
        step := SuccessStep;
      }
      isSubmitting := false;
    }

    /** `onPasswordSet`, which the password screen (rendered only in the
        password step) calls once it has saved. */
    method PasswordSet()
      requires Valid() && step == CreatePasswordStep
      modifies this`step
      ensures Valid() && step == SuccessStep
    {
      step := SuccessStep;
    }

    /** `handleReset` */
    method Reset()
      modifies this`submittedData, this`step, this`form
      ensures Valid()
      ensures submittedData == None && step == FormStep && form == DefaultValues
    {
      submittedData := None;
      step := FormStep;
      form := DefaultValues;
    }
  }
}
