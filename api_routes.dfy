/** The response every route sends: an HTTP status and the JSON envelope
    `{ success, message, ... }` with the route's own extra fields. */
module Http {
  import opened JsValues
  import opened Users

  /** What the patient search exposes of an account: no `type`, `role`,
      `hospitalName` or `medicalRecords`. */
  datatype PatientSummary = PatientSummary(
    id: string, email: string, fullName: Option<string>, healthId: Option<string>, createdAt: string)

  datatype Payload =
    | NoPayload
    | UserPayload(user: User)
    | PatientPayload(patient: PatientSummary, records: seq<Doc>)
    | RecordsPayload(records: seq<Doc>)
    | RecordPayload(record: Doc)

  datatype Response = Response(status: int, success: bool, message: string, payload: Payload)

  /** A failure envelope with the given status and message and no payload. */
  function Failure(status: int, message: string): (r: Response)
  {
    Response(status, false, message, NoPayload)
  }
}

/** `POST /api/auth/signup`, writing to the server store. */
module SignupRoute {
  import opened JsValues
  import opened Users
  import opened Db
  import opened Http

  /** The decoded JSON body; an absent or `null` field is `None`. */
  datatype SignupRequest = SignupRequest(
    email: Option<string>, password: Option<string>, fullName: Option<string>,
    userType: Option<string>, hospitalName: Option<string>, role: Option<string>)

  /** Validation, duplicate check, account construction and save. `body` is
      `None` when the request body cannot be read as a JSON object, which the
      handler's `catch` turns into a 500. */
  method Post(db: Database, body: Option<SignupRequest>, healthIdSuffix: string, idStamp: string, now: string)
    returns (resp: Response)
    modifies db
    ensures db.records == old(db.records)
    ensures body.None? ==> resp == Failure(500, "Signup failed") && db.users == old(db.users)
    ensures body.Some? && !(Present(body.value.email) && Present(body.value.password)) ==>
      resp == Failure(400, "Email and password required") && db.users == old(db.users)
    ensures body.Some? && Present(body.value.email) && Present(body.value.password) &&
            body.value.email.value in old(db.users) ==>
      resp == Failure(400, "Email already registered") && db.users == old(db.users)
    ensures body.Some? && Present(body.value.email) && Present(body.value.password) &&
            body.value.email.value !in old(db.users) ==>
      var req := body.value;
      var u := NewUser(req.email.value, req.userType, req.fullName, req.hospitalName, req.role,
                       healthIdSuffix, idStamp, now);
      && db.users == old(db.users)[req.email.value := u]
      && resp == Response(201, true, "Registration successful", UserPayload(u))
    ensures resp.success ==>
      && resp.status == 201 && resp.payload.UserPayload?
      && (resp.payload.user.healthId.Some? <==> resp.payload.user.userType == Some("patient"))
      && (resp.payload.user.healthId.Some? ==> StartsWith(resp.payload.user.healthId.value, HealthIdPrefix))
    ensures old(WellFormed(db.users)) ==> WellFormed(db.users)
  {
    if body.None? {
      return Failure(500, "Signup failed");
    }
    var req := body.value;
    if !Present(req.email) || !Present(req.password) {
      return Failure(400, "Email and password required");
    }
    var email := req.email.value;
    if db.GetUser(email).Some? {
      return Failure(400, "Email already registered");
    }
    var user := NewUser(email, req.userType, req.fullName, req.hospitalName, req.role, healthIdSuffix, idStamp, now);
    db.SaveUser(email, user);
    return Response(201, true, "Registration successful", UserPayload(user));
  }
}

/** `POST /api/auth/login`, reading the server store. */
module LoginRoute {
  import opened JsValues
  import opened Users
  import opened Db
  import opened Http

  datatype LoginRequest = LoginRequest(email: Option<string>, password: Option<string>)

  /** Field check and lookup; the password only has to be non-empty and is
      never compared with anything. Reads the store and changes nothing. */
  function Post(db: Database, body: Option<LoginRequest>): (resp: Response)
    reads db
    ensures body.None? ==> resp == Failure(500, "Login failed")
    ensures body.Some? && !(Present(body.value.email) && Present(body.value.password)) ==>
      resp == Failure(400, "Email and password required")
    ensures resp.success <==>
      body.Some? && Present(body.value.email) && Present(body.value.password) && body.value.email.value in db.users
    ensures resp.success ==>
      resp == Response(200, true, "Login successful", UserPayload(db.users[body.value.email.value]))
    ensures body.Some? && Present(body.value.email) && Present(body.value.password) && !resp.success ==>
      resp == Failure(401, "Email not found")
  {
    match body
    case None => Failure(500, "Login failed")
    case Some(req) =>
      if !Present(req.email) || !Present(req.password) then Failure(400, "Email and password required")
      else
        var user := db.GetUser(req.email.value);
        if user.None? then Failure(401, "Email not found")
        else Response(200, true, "Login successful", UserPayload(user.value))
  }
}

/** `GET /api/patients/search?healthId=…`, reading the server store. */
module PatientSearchRoute {
  import opened JsValues
  import opened Users
  import opened Records
  import opened Db
  import opened Http

  /** The projection the route sends back instead of the stored account. */
  function Summary(u: User): (summary: PatientSummary)
  {
    PatientSummary(u.id, u.email, u.fullName, u.healthId, u.createdAt)
  }

  /** Health-ID lookup returning the account's summary and every record filed
      under that Health ID. `healthIdParam` is `searchParams.get("healthId")`. */
  method Get(db: Database, healthIdParam: Option<string>) returns (resp: Response)
    ensures !Present(healthIdParam) ==> resp == Failure(400, "Health ID required")
    ensures Present(healthIdParam) && !HasHealthId(db.users, healthIdParam.value) ==>
      resp == Failure(404, "Patient not found")
    ensures Present(healthIdParam) && HasHealthId(db.users, healthIdParam.value) ==>
      var h := healthIdParam.value;
      && resp.status == 200 && resp.success && resp.message == "Patient found"
      && resp.payload.PatientPayload?
      && (exists e :: e in db.users && db.users[e].healthId == Some(h) && resp.payload.patient == Summary(db.users[e]))
      && resp.payload.records == FilterByHealthId(db.records, h)
    ensures resp.success ==> forall x :: x in resp.payload.records <==>
      x in db.records && FiledUnder(x, healthIdParam.value)
  {
    if !Present(healthIdParam) {
      return Failure(400, "Health ID required");
    }
    var healthId := healthIdParam.value;
    var patient := db.FindUserByHealthId(healthId);
    if patient.None? {
      return Failure(404, "Patient not found");
    }
    var records := db.RecordsByHealthId(healthId);
    return Response(200, true, "Patient found", PatientPayload(Summary(patient.value), records));
  }
}

/** `GET` and `POST /api/records`, both on the server store. */
module RecordsRoute {
  import opened JsValues
  import opened Records
  import opened Db
  import opened Http

  /** Records filed under the Health ID; an empty list is still a success. */
  function Get(db: Database, healthIdParam: Option<string>): (resp: Response)
    reads db
    ensures !Present(healthIdParam) ==> resp == Failure(400, "Health ID required")
    ensures Present(healthIdParam) ==>
      && resp.status == 200 && resp.success && resp.message == "Records retrieved"
      && resp.payload.RecordsPayload?
      && (forall x :: x in resp.payload.records <==> x in db.records && FiledUnder(x, healthIdParam.value))
      && (forall x :: multiset(resp.payload.records)[x] ==
            if FiledUnder(x, healthIdParam.value) then multiset(db.records)[x] else 0)
  {
    if !Present(healthIdParam) then Failure(400, "Health ID required")
    else Response(200, true, "Records retrieved", RecordsPayload(db.RecordsByHealthId(healthIdParam.value)))
  }

  /** The decoded JSON body: each field is whatever value the client sent
      (`Undefined` when absent); none of them is checked for being a string. */
  datatype RecordsPostRequest = RecordsPostRequest(email: Value, healthId: Value, recordData: Value)

  /** The record `POST` builds: filed under the request's `healthId` through
      both properties, keeping the whole `recordData`, with `type`, `title` and
      `description` taken from it when truthy and defaulted otherwise. */
  function NewRecord(email: Value, healthId: Value, recordData: Value, idStamp: string, now: string): (r: Doc)
    ensures r.Keys == {"id", "email", "healthId", "patientHealthId", "type", "title", "description", "createdAt", "data"}
    ensures r["id"] == Str("record_" + idStamp) && r["createdAt"] == Str(now)
    ensures r["email"] == email && r["healthId"] == healthId && r["patientHealthId"] == healthId
    ensures r["data"] == recordData
    ensures Truthy(Prop(recordData, "type")) ==> r["type"] == Prop(recordData, "type")
    ensures !Truthy(Prop(recordData, "type")) ==> r["type"] == Str("consultation")
    ensures Truthy(Prop(recordData, "title")) ==> r["title"] == Prop(recordData, "title")
    ensures !Truthy(Prop(recordData, "title")) ==> r["title"] == Str("Medical Record")
    ensures Truthy(Prop(recordData, "description")) ==> r["description"] == Prop(recordData, "description")
    ensures !Truthy(Prop(recordData, "description")) ==> r["description"] == Str("")
    ensures forall h :: healthId == Str(h) ==> FiledUnder(r, h)
  {
    map[
      "id" := Str("record_" + idStamp),
      "email" := email,
      "healthId" := healthId,
      "patientHealthId" := healthId,
      "type" := OrElse(Prop(recordData, "type"), Str("consultation")),
      "title" := OrElse(Prop(recordData, "title"), Str("Medical Record")),
      "description" := OrElse(Prop(recordData, "description"), Str("")),
      "createdAt" := Str(now),
      "data" := recordData]
  }

  /** Builds a record and appends it; `email` is not required. `body` is
      `None` when the request body cannot be read as a JSON object (the 500). */
  method Post(db: Database, body: Option<RecordsPostRequest>, idStamp: string, now: string)
    returns (resp: Response)
    modifies db
    ensures db.users == old(db.users)
    ensures body.None? ==> resp == Failure(500, "Failed to save record") && db.records == old(db.records)
    ensures body.Some? && !(Truthy(body.value.healthId) && Truthy(body.value.recordData)) ==>
      resp == Failure(400, "Health ID and record data required") && db.records == old(db.records)
    ensures body.Some? && Truthy(body.value.healthId) && Truthy(body.value.recordData) ==>
      var r := NewRecord(body.value.email, body.value.healthId, body.value.recordData, idStamp, now);
      && db.records == old(db.records) + [r]
      && resp == Response(201, true, "Record saved and synced to cloud", RecordPayload(r))
  {
    if body.None? {
      return Failure(500, "Failed to save record");
    }
    var req := body.value;
    if !Truthy(req.healthId) || !Truthy(req.recordData) {
      return Failure(400, "Health ID and record data required");
    }
    var newRecord := NewRecord(req.email, req.healthId, req.recordData, idStamp, now);
    db.AddRecord(newRecord);
    return Response(201, true, "Record saved and synced to cloud", RecordPayload(newRecord));
  }

  /** A `POST` with Health ID `h` followed by `GET ?healthId=h`: the listing
      is the one from before the `POST` with the new record at its end. */
  method PostThenGet(db: Database, email: Value, healthId: string, recordData: Value, idStamp: string, now: string)
    returns (posted: Response, listed: Response)
    requires healthId != "" && Truthy(recordData)
    modifies db
    ensures posted.status == 201 && posted.payload.RecordPayload?
    ensures listed.status == 200 && listed.payload.RecordsPayload?
    ensures listed.payload.records == old(FilterByHealthId(db.records, healthId)) + [posted.payload.record]
  {
    posted := Post(db, Some(RecordsPostRequest(email, Str(healthId), recordData)), idStamp, now);
    FilterByHealthIdAppend(old(db.records), posted.payload.record, healthId);
    listed := Get(db, Some(healthId));
  }
}

/** `POST /api/records/add`, forwarding to the browser-side store of
    `lib/auth-service.ts`, never to the server store that `GET /api/records`
    and the patient search read. */
module RecordsAddRoute {
  import opened JsValues
  import opened Users
  import opened AuthService
  import opened Http

  datatype AddRequest = AddRequest(email: Option<string>, record: Option<Doc>)

  /** The reply of `POST /api/records/add`: the auth-service envelope as it is, with the
      default status 200 whatever its `success`. */
  function Forward(reply: AuthResponse): (r: Response)
    ensures r.status == 200 && r.success == reply.success && r.message == reply.message
    ensures reply.user.Some? <==> r.payload.UserPayload?
    ensures reply.user.Some? ==> r.payload.user == reply.user.value
  {
    Response(200, reply.success, reply.message,
             if reply.user.Some? then UserPayload(reply.user.value) else NoPayload)
  }

  /** Validation and delegation to `addMedicalRecord`. On the server, where
      there is no `window`, the call always answers "User not found" and
      writes nothing, and the route still replies with status 200. */
  method Post(store: ClientStore, body: Option<AddRequest>, idStamp: string, now: string)
    returns (resp: Response)
    modifies store
    ensures body.None? ==>
      resp == Failure(500, "Failed to add record") &&
      store.storedUsers == old(store.storedUsers) && store.storedRecords == old(store.storedRecords)
    ensures body.Some? && !(Present(body.value.email) && body.value.record.Some?) ==>
      resp == Failure(400, "Email and record data required") &&
      store.storedUsers == old(store.storedUsers) && store.storedRecords == old(store.storedRecords)
    ensures body.Some? && Present(body.value.email) && body.value.record.Some? ==>
      var email := body.value.email.value;
      && resp.status == 200
      && (resp.success <==> email in old(store.GetUsers()))
      && (!resp.success ==>
            && resp == Response(200, false, "User not found", NoPayload)
            && store.storedUsers == old(store.storedUsers) && store.storedRecords == old(store.storedRecords))
      && (resp.success ==>
            && email in old(store.storedUsers)
            && var nr := NewMedicalRecord(email, body.value.record.value, idStamp, now);
            && store.storedUsers == old(store.storedUsers)[email := WithRecord(old(store.storedUsers)[email], nr)]
            && store.storedRecords == old(store.storedRecords) + [nr]
            && resp == Response(200, true, "Record saved and synced to cloud", UserPayload(store.storedUsers[email])))
    ensures !store.windowPresent ==>
      !resp.success && store.storedUsers == old(store.storedUsers) && store.storedRecords == old(store.storedRecords)
  {
    if body.None? {
      return Failure(500, "Failed to add record");
    }
    var req := body.value;
    if !Present(req.email) || req.record.None? {
      return Failure(400, "Email and record data required");
    }
    var result := store.AddMedicalRecord(req.email.value, req.record.value, idStamp, now);
    return Forward(result);
  }
}
