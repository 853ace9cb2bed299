# Health-record portal: identity and record data-access layer in Dafny

This project models the data-access core of a patient health-record portal.
Patients register and receive a Health ID ("JEEV" followed by a random suffix).
Hospital staff search patients by that Health ID and file medical records under it.

Two stores exist side by side and are modelled separately:

- **The server store** (`lib/db.ts`, module `Db`). It is an in-memory map from
  email to user plus an append-only list of records. It is a class
  `Db.Database` whose methods change its two fields.
- **The browser store** (`lib/auth-service.ts`, module `AuthService`). It is a
  users map and a records list kept in `localStorage`. It is a class
  `AuthService.ClientStore` holding the stored contents and a constant
  `windowPresent`. Without a window, every read yields an empty collection
  and every write is dropped.

The HTTP handlers under `app/api/` are methods or functions over these stores.
Each returns a status and the `{success, message, ...}` envelope
(`Http.Response`):

- signup, login, the patient search, and `GET`/`POST /api/records` use the server store;
- `POST /api/records/add` uses the browser store.

The modules `JsValues` and `JsStrings` give the JavaScript semantics these files rely on:

- a record of type `any` is a `Doc`, a map from property name to value;
- object spread is right-biased map union;
- truthiness, `trim`, `toLowerCase`, `includes`.

Two UI components contribute pure decision logic:

- the records dashboard's filter-then-sort computation (`RecordsDashboard`);
- the add-record form's validation, record construction and submit state (`AddHistory`).

In these points the model follows what the code does:

- A Health ID is only guaranteed to start with "JEEV". The random suffix can
  be shorter than nine characters, and uniqueness is never checked.
- `role` and `hospitalName` are set only for hospital accounts, but may be
  absent there too.
- The signup route never validates `type`.
- Records are matched by `healthId` or by `patientHealthId`.
- `POST /api/records/add` answers with `{success, user, message}`, with no
  `record` field.
- Only `addMedicalRecord` writes two collections: the records list and the
  user's own `medicalRecords`.

Calls run on the server against the browser store, as `POST /api/records/add`
does. There `addMedicalRecord` always answers "User not found" with status 200
and writes nothing (`RecordsAddRoute.Post`).

The dual write in `addMedicalRecord` keeps every user's copy of a record in
the records list (`ClientStore.Mirrored`). `updatePatientRecord` does not keep
that property, because it changes only the records list
(`AuthService.UpdateDesynchronisesCopies`).

## Model

| member | source | states |
|---|---|---|
| `Seqs.Filter` | components/modules/medical-records-dashboard.tsx:117-135 | `filter` keeps exactly the elements satisfying the predicate, each as often as in the input |
| `Records.FilterByHealthId` | lib/db.ts:61-63 | result holds exactly the records whose `healthId` or `patientHealthId` equals the Health ID, with their multiplicities in the store |
| `Records.FilterByHealthIdAppend` | app/api/records/route.ts:41 | appending a record filed under `h` makes it the last record listed for `h`, after the earlier listing; appending any other record leaves the listing unchanged |
| `Records.FindIndexById` | lib/db.ts:66 | `findIndex`: -1 exactly when no record has the id, otherwise the first index holding it |
| `Records.ApplyUpdate` | lib/db.ts:68 | spread merge: patch fields override the record, `updatedAt` is set last and beats any `updatedAt` in the patch, other fields are kept |
| `Records.UpdateById` | lib/auth-service.ts:146-151 | length unchanged; only the first record with the id is replaced by the merged record; all others unchanged; no match leaves the list unchanged |
| `Users.NewUser` | lib/auth-service.ts:63-75 | Health ID is "JEEV"+suffix exactly for patients; `fullName` is the person's for patients and the hospital's otherwise; `hospitalName`/`role` only for hospitals; empty `medicalRecords` |
| `Users.FindByHealthId` | lib/auth-service.ts:124-130 | the `for…in` scan returns an account carrying the Health ID, null exactly when none does, and the unique one when Health IDs are unique |
| `Db.Database.constructor` | lib/db.ts:30-31 | both stores start empty |
| `Db.Database.GetUser` | lib/db.ts:43-45 | returns the user stored under the email, null exactly when the email is not a key |
| `Db.Database.SaveUser` | lib/db.ts:47-50 | entry for the email set unconditionally; afterwards `GetUser` returns it; every other email and all records unchanged |
| `Db.Database.AddRecord` | lib/db.ts:56-59 | appends at the end: length grows by one, previous records are an unchanged prefix, users unchanged |
| `Db.Database.RecordsByHealthId` | lib/db.ts:61-63 | exactly the stored records filed under the Health ID, with their multiplicities |
| `Db.Database.UpdateRecord` | lib/db.ts:65-73 | true iff some record has the id; the first such record becomes the merged record, length and all other records and users unchanged |
| `Db.Database.FindUserByHealthId` | lib/db.ts:75-82 | a stored user with that Health ID, null iff no such user exists |
| `AuthService.NewMedicalRecord` | lib/auth-service.ts:102-107 | `createdAt` and `email` override the caller's; caller's `id` overrides the generated "record_…" one; other caller fields kept |
| `AuthService.WithRecord` | lib/auth-service.ts:112-115 | the user's `medicalRecords` (created if missing) gains the record at the end; no other field changes |
| `AuthService.ClientStore.constructor` | lib/auth-service.ts:22-24 | the store starts from the given window flag and stored contents |
| `AuthService.ClientStore.GetUsers` | lib/auth-service.ts:26-30 | empty map without a window, the stored map otherwise |
| `AuthService.ClientStore.GetRecords` | lib/auth-service.ts:38-42 | empty list without a window, the stored list otherwise |
| `AuthService.ClientStore.SaveUsers` | lib/auth-service.ts:32-36 | stores the map with a window, a no-op without one; records untouched |
| `AuthService.ClientStore.SaveRecords` | lib/auth-service.ts:44-48 | stores the list with a window, a no-op without one; users untouched |
| `AuthService.ClientStore.SignUp` | lib/auth-service.ts:50-81 | "Email already registered" iff the email is a key, store unchanged; otherwise the new user is stored under the email (nothing stored without a window); keeps accounts well formed and copies mirrored |
| `AuthService.ClientStore.Login` | lib/auth-service.ts:83-92 | succeeds iff the email is a key and returns the stored user; password unused; always fails without a window |
| `AuthService.ClientStore.AddMedicalRecord` | lib/auth-service.ts:94-119 | unknown email: "User not found", no writes (always so without a window); otherwise the same new record is appended to the records list and to that user's list; keeps accounts well formed and copies mirrored |
| `AuthService.ClientStore.SearchPatientByHealthId` | lib/auth-service.ts:121-131 | "Patient found" with a stored account carrying the Health ID iff one exists; always "Patient not found" without a window |
| `AuthService.ClientStore.GetPatientRecords` | lib/auth-service.ts:133-136 | exactly the stored records filed under the Health ID; empty without a window |
| `AuthService.ClientStore.UpdatePatientRecord` | lib/auth-service.ts:138-155 | "User not found" before looking at records, then "Record not found"; on success only the first matching record is merged and stamped; users unchanged |
| `Records.UpdateDropsOldRecord` | lib/db.ts:65-73 | a record held once in the list and not yet stamped is absent from the list after its update |
| `AuthService.UpdateDesynchronisesCopies` | lib/auth-service.ts:138-155 | when the updated record is held once in the list and also in its owner's `medicalRecords`, a mirrored store is no longer mirrored after the update: the owner keeps the old record, which the list no longer contains |
| `SignupRoute.Post` | app/api/auth/signup/route.ts:3-37 | 500 on an unreadable body; 400 on empty email or password; 400 "Email already registered" with store unchanged; otherwise the new user is saved under the email and echoed with 201; Health ID present iff type is "patient"; keeps the store well formed |
| `LoginRoute.Post` | app/api/auth/login/route.ts:3-23 | 400 on empty email or password; 401 "Email not found" for an unknown email; 200 with the stored user otherwise, whatever the password; reads only |
| `PatientSearchRoute.Get` | app/api/patients/search/route.ts:3-38 | 400 without a Health ID; 404 iff no user carries it; otherwise 200 with the id/email/fullName/healthId/createdAt summary of such a user and exactly the records filed under the Health ID; reads only |
| `RecordsRoute.Get` | app/api/records/route.ts:3-19 | 400 without a Health ID; otherwise 200 with exactly the records filed under it, even when none |
| `RecordsRoute.NewRecord` | app/api/records/route.ts:29-39 | `healthId` and `patientHealthId` both equal the request's value, `data` is `recordData`, `type`/`title`/`description` default to "consultation"/"Medical Record"/"" when falsy; filed under the Health ID |
| `RecordsRoute.Post` | app/api/records/route.ts:21-56 | 400 and no append without a truthy Health ID and record data (email not required); otherwise exactly one record appended and returned with 201; users unchanged |
| `RecordsRoute.PostThenGet` | app/api/records/route.ts:3-56 | after a successful POST with Health ID `h`, GET `h` returns the earlier listing with the new record last |
| `RecordsAddRoute.Forward` | app/api/records/add/route.ts:13 | the auth-service envelope is sent verbatim with status 200 whatever its `success` |
| `RecordsAddRoute.Post` | app/api/records/add/route.ts:3-17 | 500 on an unreadable body; 400 "Email and record data required"; otherwise status 200 with `addMedicalRecord`'s result, and on success the new record appended to the records list and to that user's `medicalRecords`; only the browser store is modified; without a window always "User not found" and no writes |
| `JsStrings.Trim` | components/modules/medical-records-dashboard.tsx:115 | `trim()` is non-empty iff the query has a non-white-space character |
| `JsStrings.ToLower` | components/modules/medical-records-dashboard.tsx:116 | same length, each character lower-cased |
| `JsStrings.IncludesIffOccurs` | components/modules/medical-records-dashboard.tsx:119-123 | `includes` holds exactly when the query occurs in the string as a contiguous slice at some index |
| `JsStrings.StrLeTotal` | components/modules/medical-records-dashboard.tsx:142 | the string order used for names is total |
| `JsStrings.StrLeTransitive` | components/modules/medical-records-dashboard.tsx:144 | the string order used for hospitals is transitive |
| `RecordsDashboard.InOrderTotal` | components/modules/medical-records-dashboard.tsx:138-147 | any two records are comparable under each sort key |
| `RecordsDashboard.InOrderTransitive` | components/modules/medical-records-dashboard.tsx:139-145 | the comparator's order is transitive for each sort key |
| `RecordsDashboard.TextFilter` | components/modules/medical-records-dashboard.tsx:115-125 | blank query keeps everything; otherwise keeps exactly the records whose lower-cased fields contain the lower-cased untrimmed query |
| `RecordsDashboard.TypeFilter` | components/modules/medical-records-dashboard.tsx:128-130 | "all" keeps everything, otherwise exactly the records of that type |
| `RecordsDashboard.StatusFilter` | components/modules/medical-records-dashboard.tsx:133-135 | "all" keeps everything, otherwise exactly the records with that status |
| `RecordsDashboard.ApplyFilters` | components/modules/medical-records-dashboard.tsx:112-135 | the three filters in sequence keep each record passing all of them with its input multiplicity, and nothing else |
| `RecordsDashboard.SortInPlace` | components/modules/medical-records-dashboard.tsx:138-147 | the array afterwards is sorted (newest date first, or ascending patient name, or ascending hospital) and a permutation of the original |
| `RecordsDashboard.FilteredRecords` | components/modules/medical-records-dashboard.tsx:111-150 | a record is in the result iff it is in the input and passes all three filters, with its input multiplicity, and the result is sorted by the chosen key |
| `RecordsDashboard.PriorityVariant` | components/modules/medical-records-dashboard.tsx:155-166 | "destructive" iff high, "secondary" iff low, "default" for everything else |
| `RecordsDashboard.StatusClasses` | components/modules/medical-records-dashboard.tsx:168-179 | each known status gets its own classes; the neutral classes iff the status is unknown |
| `AddHistory.SaveDisabled` | components/modules/add-history-module.tsx:440-446 | the button is enabled iff not saving and all four required fields are filled |
| `AddHistory.BuildRecordData` | components/modules/add-history-module.tsx:55-60 | every form field unchanged, treatment label from the tab, status "completed", id "R"+stamp |
| `AddHistory.StoredRecordKeepsFormId` | lib/auth-service.ts:102-107 | a form record stored by `addMedicalRecord` keeps its "R…" id |
| `AddHistory.AddHistoryForm.constructor` | components/modules/add-history-module.tsx:19-37 | consultation tab, empty form dated today, not saving, no error |
| `AddHistory.AddHistoryForm.Submit` | components/modules/add-history-module.tsx:44-98 | missing required field: error, nothing sent; otherwise the built record is sent, `onRecordAdd` gets that same record iff the API reports success, failure shows the reply's message or "Failed to save record", a thrown error shows the sync message; saving ends |
| `AddHistory.AddHistoryForm.ResetAfterSaved` | components/modules/add-history-module.tsx:71-88 | the timer callback after a save hides the confirmation and empties the form |
| `AddHistory.AddHistoryForm.Clear` | components/modules/add-history-module.tsx:100-117 | every text field "", treatment type "consultation", date today, no error; the save button is then disabled |

## Left out

- I/O is not modelled: `localStorage`, `JSON.parse`/`JSON.stringify`, `Request`/`Response`/`URL` parsing, `fetch` in `lib/api-client.ts` and `console.log`. The stores are their parsed contents. Each handler takes its decoded fields, with `None` for a body that cannot be read, which is the handler's 500 path.
- Nondeterminism is passed in as parameters: `Math.random` Health ID suffixes, `Date.now()` ids and ISO timestamps.
- Users.NewUser: states only the "JEEV" prefix of a Health ID, because the suffix comes from `Math.random().toString(36).substr(2, 9)` and may be shorter than nine characters.
- Users.FindByHealthId: leaves open which of several accounts sharing a Health ID is returned, because JavaScript's `for…in` key order (insertion order, integer-like keys first) is not modelled.
- Db.Database.FindUserByHealthId: leaves open which account is returned, for the same reason.
- `getAllUsers`, `getAllRecords` and `initializeDatabase` are not separate members. They return the live store objects, which here are the fields `users` and `records` of `Db.Database`. Aliasing through those returned references is not modelled.
- Request fields of signup, login and records-add are strings or absent. Other JSON values in them, which JavaScript would coerce into property keys, are not modelled. Neither is a `record` that is not an object.
- The 500 paths of the two `GET` routes are not modelled: nothing in the model can throw there.
- JSON numbers are exact reals.
- `undefined`-valued properties are not distinguished from absent ones in `User`. A JSON round trip through `localStorage` would drop them.
- JsStrings.ToLower: lower-cases only ASCII letters, not the full Unicode mapping of `toLowerCase`.
- JsStrings.StrLe: orders by character code. This stands in for the locale-aware `localeCompare`.
- RecordsDashboard.InOrder: compares ISO "YYYY-MM-DD" dates as strings. Unparsable dates, whose comparator returns `NaN`, are not modelled.
- RecordsDashboard.SortInPlace: states sortedness and permutation, but not the stability that `Array.prototype.sort` also guarantees.
- The in-place sort mutates `mockRecords` itself when no filter applies; that aliasing is not modelled. The array is rebuilt on every render, so nothing observes it.
- The hard-coded `mockRecords` contents are not modelled. `FilteredRecords` takes the records as a parameter.
- Not modelled in the form: the three-second delay before `ResetAfterSaved`, `isSaving` during the `await`, React's batching of state updates, `handleInputChange` and tab switching. The last two only store one field's new value.
- Prototype-inherited keys such as "constructor", which make `users[email]` truthy in JavaScript, are not modelled.
- Concurrency between requests is out of scope: every operation runs to completion.
