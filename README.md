# FormEase decision rules in Dafny

FormEase is a Next.js portal where a visitor fills in a contact form, can
upload a PDF or text document to have the form pre-filled by an extractor,
and can ask for a login. Signed-in users see their own submissions, and
admins can search the user list and edit anyone's submissions. This
project models the deterministic rules inside eight of its React
components, one Dafny module per component:

- `FormEaseForm` covers the upload gate (type, then size), the six guarded
  `setValue` writes and their `fieldsSet` counter, the
  `form` → `createPassword` → `success` step machine, and the shape of the
  saved record.
- `AdminDashboard` covers the case-insensitive email filter and the admin
  gate on the auth callback.
- `UserDashboard` and `UserSubmissions` cover the per-user query, the
  in-place newest-first sort, and the edit-dialog transitions.
- `CreatePasswordForm` covers the password schema, the
  account / user document / submission write sequence, and its error
  message.
- `AdminLoginForm` and `LoginForm` cover the login schema, the
  admin-privilege check, and the two error classifications.
- `EditSubmissionForm` covers the default values, the field schema, and the
  update.

Three shared modules support them:

- `Common` holds `Option`, JavaScript truthiness of optional strings, thrown
  errors, and ASCII lower-casing with `includes`.
- `Store` holds the Firestore `users` and `submissions` collections as maps
  inside a `Database` class, with the `where("userId", "==", uid)` query, and
  the auth session as an `Auth` class.
- `Ordering` holds the `createdAt` comparator and a stable in-place insertion
  sort on an array, which stands for `Array.prototype.sort`.

Component state that the source updates with `useState` setters is the state
of a class. Each handler is a method whose `modifies` clause names exactly
the state it sets. Every call the components make to Firebase or to the
extractor is an outcome parameter of the method that makes it: `Done` or
`Failed(error)` for a store call, `SignedIn(uid)` or `AuthFailed(error)` for
an auth call, and `Returned(data)` or `Threw(error)` for the extractor. So a
method's contract describes every path the component can take. The email
format check of the schemas is a parameter `isEmail: string -> bool`.
Timestamps are integer milliseconds. The time of `new Date()` and the id
that `addDoc` picks are parameters as well.

Two behaviours of the code are worth knowing:

- The extractor's prompt asks for one of four times of day
  (`src/ai/flows/extract-details-flow.ts` lines 25 and 45), but nothing
  checks it. The output schema and both form schemas accept any string
  (`EditSubmissionForm.AnyTimeAccepted`).
- Only a null result or one with no keys takes the "couldn't find details"
  path (`FormEaseForm.tsx` lines 130-137). Six empty strings reach the merge
  and report "0 field(s)" pre-filled (`FormEaseForm.AllEmptyRecord`,
  `FormEaseForm.FormEase.HandleFileChange`).

## Model

| member | source | states |
|---|---|---|
| FormEaseForm.CheckFile | src/components/form/FormEaseForm.tsx:99-115 | a file is accepted exactly when its type is `application/pdf` or `text/plain` and its size is at most 5*1024*1024 bytes; a wrong type is reported as such whatever the size (the type check precedes the size check) |
| FormEaseForm.CheckFileBoundaries | src/components/form/FormEaseForm.tsx:99-115 | exactly 5 MiB passes, one byte more is too large, an `image/png` file of any size has the wrong type |
| FormEaseForm.Writes | src/components/form/FormEaseForm.tsx:140-145 | the fields written are exactly those whose extracted value is truthy, at most six of them |
| FormEaseForm.WritesDistinct | src/components/form/FormEaseForm.tsx:139-145 | no field is written twice, so `fieldsSet` counts distinct truthy fields |
| FormEaseForm.Merge | src/components/form/FormEaseForm.tsx:140-145 | each field takes the extracted value when it is truthy and keeps the old form value otherwise; `createLogin` is never touched |
| FormEaseForm.MergeIdempotent | src/components/form/FormEaseForm.tsx:140-145 | merging the same record twice gives the same form as merging it once |
| FormEaseForm.MergeOverwrites | src/components/form/FormEaseForm.tsx:140-145 | two forms that agree on every field the record does not write merge to the same form |
| FormEaseForm.MergeNothingWritten | src/components/form/FormEaseForm.tsx:139-145 | a record with no truthy value leaves the form unchanged |
| FormEaseForm.NoKeysWritesNothing | src/components/form/FormEaseForm.tsx:130-145 | `NoKeys`, the `Object.keys(extractedData).length === 0` test, holds only for a record that would write nothing and leave the form unchanged |
| FormEaseForm.AllEmptyRecord | src/components/form/FormEaseForm.tsx:130-145 | six present but empty values are not "no keys", and they produce zero writes |
| FormEaseForm.FormEase.ApplyExtraction | src/components/form/FormEaseForm.tsx:139-145 | the six sequential guarded writes leave the form equal to `Merge` of the old form, and `fieldsSet` equals the number of writes |
| FormEaseForm.FormEase.HandleFileChange | src/components/form/FormEaseForm.tsx:95-174 | no file, a wrong type or an oversized file returns early without calling the extractor or touching the form; a read error or a thrown extraction leaves the form as it was; a null or keyless result reports nothing found; otherwise the form is merged and the count reported; `isExtracting` is false once an accepted file is handled |
| FormEaseForm.ToSubmissionDoc | src/components/form/FormEaseForm.tsx:184-189 | the saved record carries the form's five text fields and time of day, the given `createdAt`, and `userId` exactly when a user is known |
| FormEaseForm.CreateLoginNotSaved | src/components/form/FormEaseForm.tsx:184 | the saved record does not depend on `createLogin` |
| FormEaseForm.FormEase.CurrentScreen | src/components/form/FormEaseForm.tsx:212-217 | the password screen gets the submitted email and data, and the success screen reports whether a login was requested |
| FormEaseForm.FormEase.Submit | src/components/form/FormEaseForm.tsx:176-204 | with `createLogin` and no user, the step becomes `createPassword` and nothing is saved; otherwise a successful write adds exactly the shaped record and the step becomes `success`; a failed write changes neither the store nor the step; `isSubmitting` ends false |
| FormEaseForm.FormEase.PasswordSet | src/components/form/FormEaseForm.tsx:212-213 | `onPasswordSet` moves the password step to `success` |
| FormEaseForm.FormEase.Reset | src/components/form/FormEaseForm.tsx:206-210 | reset clears the submitted data, returns to the form step and restores the default values |
| FormEaseForm.FormEase.SetCurrentUser | src/components/form/FormEaseForm.tsx:71-76 | the auth subscription records the current user |
| AdminDashboard.FilterUsers | src/components/admin/AdminDashboard.tsx:73-79 | the filtered list is never longer than the user list |
| AdminDashboard.FilterIsSubsequence | src/components/admin/AdminDashboard.tsx:75-77 | the filtered list is an order-preserving subsequence of the users |
| AdminDashboard.FilterMembers | src/components/admin/AdminDashboard.tsx:74-77 | a user is kept exactly when its lower-cased email, or `''` when it has none, contains the lower-cased term |
| AdminDashboard.EmptyTermKeepsAll | src/components/admin/AdminDashboard.tsx:74-77 | an empty term keeps every user, users without an email included |
| AdminDashboard.FilterIgnoresCase | src/components/admin/AdminDashboard.tsx:74 | terms with the same lower-case form give the same result |
| AdminDashboard.UpperCaseTerm | src/components/admin/AdminDashboard.tsx:74 | the upper-cased term filters like the term itself |
| AdminDashboard.AdminGate.OnAuthStateChanged | src/components/admin/AdminDashboard.tsx:47-62 | a signed-in user is accepted only when their document exists with `isAdmin`; otherwise they are signed out and sent to `/admin/login`; with no user the page goes to `/admin/login` and `user` is not set; a failed lookup or a failed sign-out stops the callback, `loading` stays as it was and the session is unchanged |
| Common.OrEmpty | src/components/admin/AdminDashboard.tsx:76 | the fallback to `""` gives the string itself when it is truthy and `""` otherwise |
| Common.Lower | src/components/admin/AdminDashboard.tsx:74 | lower-casing keeps the length and maps each character through the ASCII lower-case map |
| Common.ContainsIff | src/components/admin/AdminDashboard.tsx:76 | `includes` holds exactly when the needle occurs at some offset of the haystack |
| Store.AdminTest | src/components/admin/AdminDashboard.tsx:52 | `IsAdmin`, the test `userDocSnap.exists() && userDocSnap.data().isAdmin`: a missing document, or one whose `isAdmin` is missing or `false`, fails it, only the user's own document decides it, and writing that document with `isAdmin: true` makes it pass |
| Store.MatchingMembers | src/components/dashboard/UserDashboard.tsx:39-41 | the query returns exactly the listed documents owned by the uid, with their stored contents |
| Store.MatchingNoDuplicates | src/components/dashboard/UserDashboard.tsx:39-41 | the query returns each document once |
| Store.Database.QueryByUser | src/components/dashboard/UserDashboard.tsx:39-41 | the per-user query holds each stored submission owned by the uid exactly once, and nothing else |
| Store.Database.Add | src/components/form/FormEaseForm.tsx:190 | `addDoc` adds one document under a fresh id and keeps the store consistent |
| Store.Database.Replace | src/components/form/EditSubmissionForm.tsx:66-67 | `updateDoc` replaces one existing document and nothing else |
| Store.Database.SetUser | src/components/auth/CreatePasswordForm.tsx:59-63 | `setDoc` on a user document changes that one user document only |
| Ordering.Compare | src/components/dashboard/UserDashboard.tsx:44-51 | the comparator is 0 whenever either date is missing, and otherwise is positive exactly when the second submission is newer |
| Ordering.CompareAntisymmetric | src/components/dashboard/UserDashboard.tsx:44-51 | swapping the arguments negates the comparator |
| Ordering.SortNewestFirst | src/components/dashboard/UserDashboard.tsx:44-51 | the in-place sort permutes the array, and when every submission is dated it leaves them newest first |
| Ordering.SortedCopy | src/components/dashboard/UserDashboard.tsx:41-51 | the mapped and sorted list is a permutation of the query result, newest first when all are dated |
| UserDashboard.Dashboard.FetchSubmissions | src/components/dashboard/UserDashboard.tsx:36-60 | on success the list is a permutation of the user's stored submissions, holds exactly those owned by the uid, and is newest first when all are dated; on failure the old list stays; `isFetchingSubmissions` ends false |
| UserDashboard.Dashboard.OnAuthStateChanged | src/components/dashboard/UserDashboard.tsx:62-74 | a signed-in user is recorded and their submissions fetched; with no user the page goes to `/login` and nothing else changes; `loading` ends false |
| UserDashboard.Dashboard.EditClick | src/components/dashboard/UserDashboard.tsx:94-97 | choosing edit selects the submission and opens the dialog |
| UserDashboard.Dashboard.EditSuccess | src/components/dashboard/UserDashboard.tsx:99-105 | a successful edit closes the dialog, clears the selection and fetches again exactly when a user is signed in |
| UserSubmissions.SubmissionsView.FetchUserDataAndSubmissions | src/components/admin/UserSubmissions.tsx:35-71 | a failed or missing user document stops before the query and keeps the old list; otherwise the user is recorded and, when the query succeeds, the list is a permutation of that user's stored submissions, newest first when all are dated; `loading` ends false on every path |
| UserSubmissions.SubmissionsView.EditClick | src/components/admin/UserSubmissions.tsx:77-80 | choosing edit selects the submission and opens the dialog |
| UserSubmissions.SubmissionsView.EditSuccess | src/components/admin/UserSubmissions.tsx:82-86 | a successful edit closes the dialog, clears the selection and runs the whole fetch again: the user is recorded when the read finds the document and kept otherwise, and the list is refreshed as in the fetch |
| CreatePasswordForm.PasswordErrors | src/components/auth/CreatePasswordForm.tsx:25-31 | the password is flagged exactly when it is shorter than 6, and `confirmPassword` is flagged exactly when the two differ, each with its message |
| CreatePasswordForm.PasswordAccepted | src/components/auth/CreatePasswordForm.tsx:25-31 | a pair passes exactly when the password has at least 6 characters and is repeated exactly |
| CreatePasswordForm.AccountErrorText | src/components/auth/CreatePasswordForm.tsx:80-85 | the code `auth/email-already-in-use` gives the in-use text; otherwise a truthy message is shown; otherwise the default text |
| CreatePasswordForm.InUseIgnoresMessage | src/components/auth/CreatePasswordForm.tsx:81-82 | the in-use code wins over any message |
| CreatePasswordForm.NewUserDoc | src/components/auth/CreatePasswordForm.tsx:60-63 | the new user document holds the email and `isAdmin: false` |
| CreatePasswordForm.NewAccountNotAdmin | src/components/auth/CreatePasswordForm.tsx:60-63 | a freshly created account does not pass the admin check |
| CreatePasswordForm.PasswordForm.Submit | src/components/auth/CreatePasswordForm.tsx:53-94 | if the account cannot be created nothing is written and the session is unchanged; otherwise the new account is signed in, the user document is written under the new uid, then the submission without `createLogin` with that uid and `createdAt`; `onPasswordSet` happens exactly when all three steps succeed; a failure shows the classified message; `isSubmitting` ends false |
| LoginForm.LoginErrors | src/components/auth/LoginForm.tsx:26-29 | the email is flagged exactly when it fails the format check, the password exactly when it is empty |
| LoginForm.LoginDescription | src/components/auth/LoginForm.tsx:57-60 | the three credential codes give the invalid-credentials text and every other error the default text |
| LoginForm.LoginIgnoresMessage | src/components/auth/LoginForm.tsx:57-60 | the message of an error never changes what the user login form shows |
| LoginForm.Login.Submit | src/components/auth/LoginForm.tsx:46-69 | invalid input is stopped by the schema; a successful sign-in goes to `/dashboard`; a failed one shows `LoginDescription`; `isSubmitting` ends false |
| AdminLoginForm.AdminDescription | src/components/auth/AdminLoginForm.tsx:68-73 | the three credential codes give the invalid-credentials text; otherwise a truthy message is shown; otherwise the default text |
| AdminLoginForm.NotAdminShown | src/components/auth/AdminLoginForm.tsx:61-73 | the error raised for a non-admin account shows "This account does not have admin privileges." |
| AdminLoginForm.AdminAgreesWithLogin | src/components/auth/AdminLoginForm.tsx:68-73 | the two forms differ only where the admin form shows an error's own message |
| AdminLoginForm.AdminLogin.Submit | src/components/auth/AdminLoginForm.tsx:47-82 | the page goes to `/admin` exactly when sign-in and lookup succeed for an admin; a non-admin is signed out and shown the no-privileges text; if that sign-out fails, the user stays signed in and the sign-out error is classified; other failures show `AdminDescription`; `isSubmitting` ends false |
| EditSubmissionForm.Defaults | src/components/form/EditSubmissionForm.tsx:51-61 | each text default is the submission's value when truthy and `""` otherwise; the time of day is copied as it is |
| EditSubmissionForm.PassesIff | src/components/form/EditSubmissionForm.tsx:31-38 | the schema accepts exactly non-empty names, address and postcode, an email passing the format check, and a present time of day |
| EditSubmissionForm.FieldMessages | src/components/form/EditSubmissionForm.tsx:31-38 | `FieldError` gives "First name is required.", "Surname is required.", "Address is required.", "Postcode is required.", "Invalid email address." and "Please select a time of day." exactly when the matching field fails |
| EditSubmissionForm.AnyTimeAccepted | src/components/form/EditSubmissionForm.tsx:37 | every string is accepted as the time of day |
| EditSubmissionForm.ApplyEdit | src/components/form/EditSubmissionForm.tsx:66-67 | the update overwrites exactly the six form fields and keeps `createdAt` and `userId` |
| EditSubmissionForm.DefaultsAfterEdit | src/components/form/EditSubmissionForm.tsx:51-67 | opening the form on an edited submission shows the values just saved |
| EditSubmissionForm.DefaultsOfSaved | src/components/form/EditSubmissionForm.tsx:51-61 | opening the form on a submission saved by the main form shows that form's values |
| EditSubmissionForm.EditForm.Submit | src/components/form/EditSubmissionForm.tsx:63-84 | invalid values are stopped by the schema; the document with this submission's id is updated and `onSuccess` called once exactly when there is a submission, its document exists and the write succeeds; any other valid submit ends in the error toast with the store unchanged and `onSuccess` not called; `isSubmitting` ends false |

## Left out

- The extractor itself (`src/ai/flows/extract-details-flow.ts`) is a call to a generative model. Only its output schema is used, as `ExtractedRecord`. Its outcome is a parameter.
- Reading the file as a data URI and its base64 encoding are done by the browser's `FileReader`. The model has only a flag saying whether the read succeeded.
- Firebase Auth and Firestore are an in-memory store with outcome parameters. The network, the security rules, and `Timestamp` conversion are not modelled.
- `onAuthStateChanged` subscriptions, React re-renders and the interleaving of async handlers are not modelled. Each handler runs to completion. In particular, `UserDashboard.Dashboard.OnAuthStateChanged` finishes the fetch before clearing `loading`, while the source does not await the fetch.
- The order in which the store returns query results is modelled as insertion order (`Database.order`). When every submission is dated, the sort fixes the order except among submissions with the same `createdAt`. The comparator returns 0 for those, and `Array.prototype.sort` is stable, so they keep the store's listing order. The model takes that listing order as insertion order, whereas Firestore lists an equality query by document id. `Ordering.SortNewestFirst` does not promise stability.
- Ordering.SortNewestFirst: the order is claimed only when all submissions are dated. With undated ones the comparator is not a consistent order, and JavaScript's `sort` gives no guarantee.
- The admin dashboard's `fetchUsers` (lines 30-44, 67-71) and its `orderBy("email")` listing are not modelled. The filter takes the user list as given.
- Store.IsAdmin: `isAdmin` is held as `Option<bool>`, so the model cannot express a document whose `isAdmin` is a truthy non-boolean. The source tests JavaScript truthiness (`AdminDashboard.tsx` line 52, `AdminLoginForm.tsx` line 55), so such a document, for example the string `"false"` or the number `1`, passes both admin gates. This applies to `Store.AdminTest`, `AdminDashboard.AdminGate.OnAuthStateChanged` and `AdminLoginForm.AdminLogin.Submit` as well. The writers in this repository store only booleans (`CreatePasswordForm.tsx` lines 60-63).
- CreatePasswordForm.PasswordForm.Submit: when `setDoc` or `addDoc` fails after the account was created, the account stays, signed in, without its user document or its submission. The model records this as it happens; it does not model Firebase Auth's account list, so it does not show that a retry with the same email then fails with `auth/email-already-in-use`.
- Common.Lower: it models `toLowerCase` on ASCII only. Unicode case mapping is not covered.
- CreatePasswordForm.PasswordErrors: lengths count characters, while JavaScript counts UTF-16 code units.
- The email format check of the schemas is the uninterpreted parameter `isEmail`.
- Toast titles and wording are not modelled, beyond the classified error messages. Neither are `console.error`, JSX markup, PDF export (jsPDF), sign-out handlers, or the reset of the file input.
- The main form's schema (`FormEaseForm.tsx` lines 37-45) is the same as the edit form's schema apart from `createLogin`, so it is not modelled again. `FormEase.Submit` takes values that have already passed it.
- Skeleton, loader and page files only hold markup and dynamic imports, so they are not modelled.
