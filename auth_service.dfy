/** The browser-side store of `lib/auth-service.ts`: a users map under the key
    "jeev_users" and a records list under "jeev_records", read from and
    written back to `localStorage` around every operation. When there is no
    `window` (the code runs on the server) every read yields an empty
    collection and every write is dropped. */
module AuthService {
  import opened JsValues
  import opened Users
  import opened Records

  /** The answer of the account and record operations: an outcome, the account when there is one, and a message. */
  datatype AuthResponse = AuthResponse(success: bool, user: Option<User>, message: string)

  /** The answer of the patient search: an outcome, the patient when found, and a message. */
  datatype SearchResponse = SearchResponse(success: bool, patient: Option<User>, message: string)

  /** The record `addMedicalRecord` stores: a generated "record_" id, then the
      caller's fields, then the creation time and the owner's email. The
      caller's `id` wins over the generated one, while `createdAt` and `email`
      are written after the caller's fields and win over them. */
  function NewMedicalRecord(email: string, record: Doc, idStamp: string, now: string): (r: Doc)
    ensures r.Keys == record.Keys + {"id", "createdAt", "email"}
    ensures r["createdAt"] == Str(now) && r["email"] == Str(email)
    ensures "id" in record ==> r["id"] == record["id"]
    ensures "id" !in record ==> r["id"] == Str("record_" + idStamp)
    ensures forall k :: k in record && k != "createdAt" && k != "email" ==> r[k] == record[k]
  {
    map["id" := Str("record_" + idStamp)] + record + map["createdAt" := Str(now), "email" := Str(email)]
  }

  /** The user after `if (!user.medicalRecords) user.medicalRecords = []; user.medicalRecords.push(r)`. */
  function WithRecord(user: User, r: Doc): (u: User)
    ensures u == user.(medicalRecords := u.medicalRecords)
    ensures u.medicalRecords.Some?
    ensures user.medicalRecords.Some? ==> u.medicalRecords.value == user.medicalRecords.value + [r]
    ensures user.medicalRecords.None? ==> u.medicalRecords.value == [r]
  {
    var list := if user.medicalRecords.Some? then user.medicalRecords.value else [];
    user.(medicalRecords := Some(list + [r]))
  }

  class ClientStore {
    /** Whether the code runs in a browser, where `localStorage` exists. */
    const windowPresent: bool
    /** The parsed contents of `localStorage["jeev_users"]` (empty when absent). */
    var storedUsers: map<string, User>
    /** The parsed contents of `localStorage["jeev_records"]` (empty when absent). */
    var storedRecords: seq<Doc>

    constructor (windowPresent: bool, users: map<string, User>, records: seq<Doc>)
      ensures this.windowPresent == windowPresent
      ensures storedUsers == users && storedRecords == records
    {
      this.windowPresent := windowPresent;
      storedUsers := users;
      storedRecords := records;
    }

    /** Every record a user's own list holds is also in the records list: the
        two copies that `addMedicalRecord` writes agree. */
    ghost predicate Mirrored()
      reads this
    {
      MirroredIn(storedUsers, storedRecords)
    }

    /** `getUsers()` */
    function GetUsers(): (users: map<string, User>)
      reads this
      ensures !windowPresent ==> users == map[]
      ensures windowPresent ==> users == storedUsers
    {
      if windowPresent then storedUsers else map[]
    }

    /** `getRecords()` */
    function GetRecords(): (records: seq<Doc>)
      reads this
      ensures !windowPresent ==> records == []
      ensures windowPresent ==> records == storedRecords
    {
      if windowPresent then storedRecords else []
    }

    /** `saveUsers(users)`: a no-op without a window. */
    method SaveUsers(users: map<string, User>)
      modifies this
      ensures storedUsers == if windowPresent then users else old(storedUsers)
      ensures storedRecords == old(storedRecords)
    {
      if windowPresent {
        storedUsers := users;
      }
    }

    /** `saveRecords(records)`: a no-op without a window. */
    method SaveRecords(records: seq<Doc>)
      modifies this
      ensures storedRecords == if windowPresent then records else old(storedRecords)
      ensures storedUsers == old(storedUsers)
    {
      if windowPresent {
        storedRecords := records;
      }
    }

    /** `signUp`: refuses an email that is already a key and changes nothing;
        otherwise builds the account and stores it under its email. Without a
        window the users map reads empty, so sign-up always reports success
        and stores nothing. */
    method SignUp(email: string, password: string, fullName: string, accountType: string,
                  hospitalName: Option<string>, role: Option<string>,
                  healthIdSuffix: string, idStamp: string, now: string)
      returns (resp: AuthResponse)
      requires accountType == "patient" || accountType == "hospital"
      modifies this
      ensures storedRecords == old(storedRecords)
      ensures email in old(GetUsers()) ==>
        resp == AuthResponse(false, None, "Email already registered") && storedUsers == old(storedUsers)
      ensures email !in old(GetUsers()) ==>
        var u := NewUser(email, Some(accountType), Some(fullName), hospitalName, role, healthIdSuffix, idStamp, now);
        && resp == AuthResponse(true, Some(u), "Registration successful")
        && storedUsers == (if windowPresent then old(storedUsers)[email := u] else old(storedUsers))
      ensures !windowPresent ==> resp.success && storedUsers == old(storedUsers)
      ensures old(WellFormed(storedUsers)) ==> WellFormed(storedUsers)
      ensures old(Mirrored()) ==> Mirrored()
    {
      var users := GetUsers();
      if email in users {
        return AuthResponse(false, None, "Email already registered");
      }
      var user := NewUser(email, Some(accountType), Some(fullName), hospitalName, role, healthIdSuffix, idStamp, now);
      users := users[email := user];
      SaveUsers(users);
      return AuthResponse(true, Some(user), "Registration successful");
    }

    /** `login`: succeeds exactly when the email is a key and returns the
        stored account; the password is never consulted. */
    function Login(email: string, password: string): (resp: AuthResponse)
      reads this
      ensures resp.success <==> email in GetUsers()
      ensures resp.success ==> resp == AuthResponse(true, Some(storedUsers[email]), "Login successful")
      ensures !resp.success ==> resp == AuthResponse(false, None, "Email not found")
      ensures !windowPresent ==> !resp.success
    {
      var users := GetUsers();
      if email !in users then AuthResponse(false, None, "Email not found")
      else AuthResponse(true, Some(users[email]), "Login successful")
    }

    /** `addMedicalRecord`: for a known email, appends one new record to the
        records list and the same record to that user's own list; for an
        unknown email (always so without a window) writes nothing. */
    method AddMedicalRecord(email: string, record: Doc, idStamp: string, now: string)
      returns (resp: AuthResponse)
      modifies this
      ensures email !in old(GetUsers()) ==>
        && resp == AuthResponse(false, None, "User not found")
        && storedUsers == old(storedUsers) && storedRecords == old(storedRecords)
      ensures !windowPresent ==> !resp.success
      ensures email in old(GetUsers()) ==>
        var nr := NewMedicalRecord(email, record, idStamp, now);
        var u := WithRecord(old(storedUsers)[email], nr);
        && storedRecords == old(storedRecords) + [nr]
        && storedUsers == old(storedUsers)[email := u]
        && resp == AuthResponse(true, Some(u), "Record saved and synced to cloud")
      ensures old(WellFormed(storedUsers)) ==> WellFormed(storedUsers)
      ensures old(Mirrored()) ==> Mirrored()
    {
      var users := GetUsers();
      var records := GetRecords();
      if email !in users {
        return AuthResponse(false, None, "User not found");
      }
      var newRecord := NewMedicalRecord(email, record, idStamp, now);
      records := records + [newRecord];
      SaveRecords(records);
      var user := WithRecord(users[email], newRecord);
      users := users[email := user];
      SaveUsers(users);
      return AuthResponse(true, Some(user), "Record saved and synced to cloud");
    }

    /** `searchPatientByHealthId`: a stored account carrying Health ID `h`, or
        "Patient not found" exactly when none does (always so without a window). */
    method SearchPatientByHealthId(healthId: string) returns (resp: SearchResponse)
      ensures resp.success <==> HasHealthId(GetUsers(), healthId)
      ensures resp.success ==>
        && resp.message == "Patient found" && resp.patient.Some?
        && resp.patient.value in storedUsers.Values
        && resp.patient.value.healthId == Some(healthId)
      ensures !resp.success ==> resp == SearchResponse(false, None, "Patient not found")
      ensures !windowPresent ==> !resp.success
    {
      var found := FindByHealthId(GetUsers(), healthId);
      if found.Some? {
        return SearchResponse(true, found, "Patient found");
      }
      return SearchResponse(false, None, "Patient not found");
    }

    /** `getPatientRecords`: the stored records filed under `h`, in store order. */
    function GetPatientRecords(healthId: string): (r: seq<Doc>)
      reads this
      ensures forall x :: x in r <==> x in GetRecords() && FiledUnder(x, healthId)
      ensures forall x :: multiset(r)[x] == if FiledUnder(x, healthId) then multiset(GetRecords())[x] else 0
      ensures !windowPresent ==> r == []
    {
      FilterByHealthId(GetRecords(), healthId)
    }

    /** `updatePatientRecord`: checks the user first and the record second;
        on success merges the patch into the first record with that id and
        stamps it, leaving the users map (including the user's own copy of the
        record) and every other record as they were. */
    method UpdatePatientRecord(email: string, recordId: string, updates: Doc, now: string)
      returns (resp: AuthResponse)
      modifies this
      ensures storedUsers == old(storedUsers)
      ensures email !in old(GetUsers()) ==>
        resp == AuthResponse(false, None, "User not found") && storedRecords == old(storedRecords)
      ensures email in old(GetUsers()) && FindIndexById(old(GetRecords()), recordId) == -1 ==>
        resp == AuthResponse(false, None, "Record not found") && storedRecords == old(storedRecords)
      ensures email in old(GetUsers()) && FindIndexById(old(GetRecords()), recordId) != -1 ==>
        && resp == AuthResponse(true, Some(storedUsers[email]), "Record updated and synced")
        && storedRecords == UpdateById(old(storedRecords), recordId, updates, now)
    {
      var users := GetUsers();
      var records := GetRecords();
      if email !in users {
        return AuthResponse(false, None, "User not found");
      }
      var recordIndex := FindIndexById(records, recordId);
      if recordIndex == -1 {
        return AuthResponse(false, None, "Record not found");
      }
      records := records[recordIndex := ApplyUpdate(records[recordIndex], updates, now)];
      SaveRecords(records);
      return AuthResponse(true, Some(users[email]), "Record updated and synced");
    }
  }

  /** Every record in some user's own `medicalRecords` is also in the records list. */
  ghost predicate MirroredIn(users: map<string, User>, records: seq<Doc>)
  {
    forall e, r ::
      (e in users && users[e].medicalRecords.Some? && r in users[e].medicalRecords.value)
      ==> r in records
  }

  /** `updatePatientRecord` rewrites only the records list. When the record it
      updates is held once in that list and also in its owner's own list, a
      store whose copies were mirrored stops being mirrored: the owner keeps
      the old record, which the list no longer contains. */
  lemma UpdateDesynchronisesCopies(users: map<string, User>, records: seq<Doc>, owner: string,
                                   recordId: string, updates: Doc, now: string)
    requires MirroredIn(users, records)
    requires owner in users && users[owner].medicalRecords.Some?
    requires 0 <= FindIndexById(records, recordId)
    requires records[FindIndexById(records, recordId)] in users[owner].medicalRecords.value
    requires multiset(records)[records[FindIndexById(records, recordId)]] == 1
    requires "updatedAt" !in records[FindIndexById(records, recordId)]
    ensures !MirroredIn(users, UpdateById(records, recordId, updates, now))
  {
    var rec := records[FindIndexById(records, recordId)];
    UpdateDropsOldRecord(records, recordId, updates, now);
    assert rec !in UpdateById(records, recordId, updates, now);
  }
}
