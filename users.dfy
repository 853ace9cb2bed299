/** Accounts, as both stores hold them: a map from email to user. A patient
    account gets a Health ID made of "JEEV" and a random suffix; a hospital
    account gets the hospital's name and the staff member's role instead. */
module Users {
  import opened JsValues

  datatype User = User(
    id: string,
    email: string,
    userType: Option<string>,       // "patient" | "hospital" (the HTTP route does not check it)
    fullName: Option<string>,
    healthId: Option<string>,
    hospitalName: Option<string>,
    role: Option<string>,
    createdAt: string,
    medicalRecords: Option<seq<Doc>>)

  const HealthIdPrefix := "JEEV"

  /** The field rules of a freshly registered account: a Health ID exactly
      for patients, the hospital's name and role only for hospitals, and the
      display name taken from the person for patients and from the hospital
      otherwise. */
  ghost predicate RegisteredShape(u: User)
  {
    && (u.healthId.Some? <==> u.userType == Some("patient"))
    && (u.healthId.Some? ==> StartsWith(u.healthId.value, HealthIdPrefix))
    && (u.hospitalName.Some? ==> u.userType == Some("hospital"))
    && (u.role.Some? ==> u.userType == Some("hospital"))
    && (u.userType == Some("hospital") ==> u.fullName == u.hospitalName)
  }

  /** The object both sign-up paths build: `healthId` is "JEEV" followed by
      the random suffix for patients and absent otherwise; `fullName` is the
      person's name for patients and the hospital's name otherwise. */
  function NewUser(email: string, userType: Option<string>, fullName: Option<string>,
                   hospitalName: Option<string>, role: Option<string>,
                   healthIdSuffix: string, idStamp: string, now: string): (u: User)
    ensures u.email == email && u.userType == userType && u.createdAt == now
    ensures u.id == "user_" + idStamp
    ensures u.medicalRecords == Some([])
    ensures RegisteredShape(u)
    ensures userType == Some("patient") ==> u.healthId == Some(HealthIdPrefix + healthIdSuffix)
    ensures userType == Some("patient") ==> u.fullName == fullName
    ensures userType != Some("patient") ==> u.fullName == hospitalName
    ensures userType == Some("hospital") ==> u.hospitalName == hospitalName && u.role == role
  {
    var isPatient := userType == Some("patient");
    var isHospital := userType == Some("hospital");
    User(
      id := "user_" + idStamp,
      email := email,
      userType := userType,
      fullName := if isPatient then fullName else hospitalName,
      healthId := if isPatient then Some(HealthIdPrefix + healthIdSuffix) else None,
      hospitalName := if isHospital then hospitalName else None,
      role := if isHospital then role else None,
      createdAt := now,
      medicalRecords := Some([]))
  }

  /** Every account is stored under its own email and has the shape sign-up gives it. */
  ghost predicate WellFormed(users: map<string, User>)
  {
    forall e :: e in users ==> users[e].email == e && RegisteredShape(users[e])
  }

  /** Some stored account carries Health ID `h`. */
  ghost predicate HasHealthId(users: map<string, User>, healthId: string)
  {
    exists e :: e in users && users[e].healthId == Some(healthId)
  }

  /** No two accounts share a Health ID (not enforced by the program: the
      suffix is random). */
  ghost predicate HealthIdsUnique(users: map<string, User>)
  {
    forall e1, e2 ::
      (e1 in users && e2 in users && users[e1].healthId.Some? && users[e1].healthId == users[e2].healthId)
      ==> e1 == e2
  }

  /** The scan over every stored email for an account carrying Health ID `h`,
      returning the first one met, or none. The keys are visited in an order
      the model leaves open. */
  method FindByHealthId(users: map<string, User>, healthId: string) returns (found: Option<User>)
    ensures found.Some? ==> exists e :: e in users && users[e] == found.value
    ensures found.Some? ==> found.value.healthId == Some(healthId)
    ensures found.None? <==> !HasHealthId(users, healthId)
    ensures HealthIdsUnique(users) ==>
      forall e :: e in users && users[e].healthId == Some(healthId) ==> found == Some(users[e])
  {
    var unvisited := users.Keys;
    while unvisited != {}
      invariant unvisited <= users.Keys
      invariant forall e :: e in users && e !in unvisited ==> users[e].healthId != Some(healthId)
      decreases unvisited
    {
      var e :| e in unvisited;
      if users[e].healthId == Some(healthId) {
        return Some(users[e]);
      }
      unvisited := unvisited - {e};
    }
    return None;
  }
}
