/** The server-side store of `lib/db.ts`: a module-level map from email to
    user and an append-only array of medical records, both living in process
    memory. `getAllUsers`, `getAllRecords` and `initializeDatabase` hand out
    the live store itself; here that is the fields `users` and `records`. */
module Db {
  import opened JsValues
  import opened Users
  import opened Records

  class Database {
    var users: map<string, User>
    var records: seq<Doc>

    /** Both stores start empty when the module is loaded. */
    constructor ()
      ensures users == map[] && records == []
    {
      users := map[];
      records := [];
    }

    /** The account stored under the email, or none; a stored account is never falsy. */
    function GetUser(email: string): (r: Option<User>)
      reads this
      ensures r.Some? <==> email in users
      ensures r.Some? ==> r.value == users[email]
    {
      if email in users then Some(users[email]) else None
    }

    /** Stores the account under the email, replacing any earlier one, without any uniqueness check;
        no other email's entry and no record changes. */
    method SaveUser(email: string, user: User)
      modifies this
      ensures users == old(users)[email := user]
      ensures records == old(records)
      ensures GetUser(email) == Some(user)
      ensures forall e :: e != email ==> GetUser(e) == old(GetUser(e))
    {
      users := users[email := user];
    }

    /** Appends the record at the end of the records list. */
    method AddRecord(record: Doc)
      modifies this
      ensures records == old(records) + [record]
      ensures |records| == |old(records)| + 1 && records[..|old(records)|] == old(records)
      ensures users == old(users)
    {
      records := records + [record];
    }

    /** `getRecordsByHealthId`: exactly the records filed under `h`, in store order. */
    function RecordsByHealthId(healthId: string): (r: seq<Doc>)
      reads this
      ensures forall x :: x in r <==> x in records && FiledUnder(x, healthId)
      ensures forall x :: multiset(r)[x] == if FiledUnder(x, healthId) then multiset(records)[x] else 0
    {
      FilterByHealthId(records, healthId)
    }

    /** `updateRecord`: replaces the first record whose `id` matches with the
        record overridden by the patch and stamped with `updatedAt`; reports
        whether there was one. */
    method UpdateRecord(recordId: string, updates: Doc, now: string) returns (updated: bool)
      modifies this
      ensures updated <==> exists j :: 0 <= j < |old(records)| && HasId(old(records)[j], recordId)
      ensures records == UpdateById(old(records), recordId, updates, now)
      ensures |records| == |old(records)|
      ensures !updated ==> records == old(records)
      ensures users == old(users)
    {
      var index := FindIndexById(records, recordId);
      if index != -1 {
        records := records[index := ApplyUpdate(records[index], updates, now)];
        return true;
      }
      return false;
    }

    /** `findUserByHealthId`: a stored user carrying Health ID `h`, or null
        exactly when there is none. */
    method FindUserByHealthId(healthId: string) returns (found: Option<User>)
      ensures found.Some? ==> found.value in users.Values && found.value.healthId == Some(healthId)
      ensures found.None? <==> !HasHealthId(users, healthId)
    {
      found := FindByHealthId(users, healthId);
    }
  }
}
