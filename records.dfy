/** Medical-record documents as both stores keep them (`lib/db.ts` and
    `lib/auth-service.ts` hold the same shape and use the same lookups):
    a record is filed under a Health ID through either its `healthId` or its
    legacy `patientHealthId` property, is identified by `id`, and is updated by
    spreading a patch over it and stamping `updatedAt`. */
module Records {
  import opened JsValues

  /** The record is filed under Health ID `h` through either its `healthId` or its `patientHealthId` property. */
  predicate FiledUnder(r: Doc, healthId: string)
  {
    Get(r, "healthId") == Str(healthId) || Get(r, "patientHealthId") == Str(healthId)
  }

  /** The records filed under the Health ID, in store order. */
  function FilterByHealthId(records: seq<Doc>, healthId: string): (r: seq<Doc>)
    ensures |r| <= |records|
    ensures forall x :: x in r <==> x in records && FiledUnder(x, healthId)
    ensures forall x :: multiset(r)[x] == if FiledUnder(x, healthId) then multiset(records)[x] else 0
  {
    if records == [] then []
    else
      var k := |records| - 1;
      assert records == records[..k] + [records[k]];
      FilterByHealthId(records[..k], healthId) + (if FiledUnder(records[k], healthId) then [records[k]] else [])
  }

  /** Appending a record filed under `h` makes it the last record listed for
      `h`, after exactly the records listed before; appending any other record
      leaves the listing for `h` as it was. */
  lemma FilterByHealthIdAppend(records: seq<Doc>, rec: Doc, healthId: string)
    ensures FiledUnder(rec, healthId) ==>
      FilterByHealthId(records + [rec], healthId) == FilterByHealthId(records, healthId) + [rec]
    ensures !FiledUnder(rec, healthId) ==>
      FilterByHealthId(records + [rec], healthId) == FilterByHealthId(records, healthId)
  {
    assert (records + [rec])[..|records|] == records;
  }

  /** The record's `id` property is the string `id`. */
  predicate HasId(r: Doc, id: string)
  {
    Get(r, "id") == Str(id)
  }

  /** The first index whose record has the id, or -1 when none has it. */
  function FindIndexById(records: seq<Doc>, id: string): (i: int)
    ensures -1 <= i < |records|
    ensures i == -1 <==> forall j :: 0 <= j < |records| ==> !HasId(records[j], id)
    ensures 0 <= i ==> HasId(records[i], id) && forall j :: 0 <= j < i ==> !HasId(records[j], id)
  {
    if records == [] then -1
    else if HasId(records[0], id) then 0
    else
      var k := FindIndexById(records[1..], id);
      if k == -1 then -1 else k + 1
  }

  /** The record merged with a patch and stamped: the patch wins over the old
      record, and `updatedAt` is written last so it wins over the patch. */
  function ApplyUpdate(record: Doc, updates: Doc, now: string): (r: Doc)
    ensures r.Keys == record.Keys + updates.Keys + {"updatedAt"}
    ensures r["updatedAt"] == Str(now)
    ensures forall k :: k in updates && k != "updatedAt" ==> r[k] == updates[k]
    ensures forall k :: k in record && k !in updates && k != "updatedAt" ==> r[k] == record[k]
  {
    record + updates + map["updatedAt" := Str(now)]
  }

  /** The record store after `records[i] = ApplyUpdate(records[i], ...)` at the
      first index holding `id`, or unchanged when no record holds it. */
  function UpdateById(records: seq<Doc>, id: string, updates: Doc, now: string): (r: seq<Doc>)
    ensures |r| == |records|
    ensures FindIndexById(records, id) == -1 ==> r == records
    ensures forall j :: 0 <= j < |records| && j != FindIndexById(records, id) ==> r[j] == records[j]
    ensures 0 <= FindIndexById(records, id) ==>
      var i := FindIndexById(records, id);
      r[i] == ApplyUpdate(records[i], updates, now)
  {
    var i := FindIndexById(records, id);
    if i == -1 then records else records[i := ApplyUpdate(records[i], updates, now)]
  }

  /** A value found at two different indices occurs at least twice. */
  lemma TwoIndicesCountTwice(s: seq<Doc>, i: int, j: int)
    requires 0 <= i < j < |s| && s[i] == s[j]
    ensures multiset(s)[s[i]] >= 2
  {
    assert s == s[..j] + s[j..];
    assert s[i] in s[..j] && s[j] in s[j..];
  }

  /** A record held once in the list and never stamped before is gone from the
      list after it is updated: its slot now carries `updatedAt`, and no other
      slot held it. */
  lemma UpdateDropsOldRecord(records: seq<Doc>, id: string, updates: Doc, now: string)
    requires 0 <= FindIndexById(records, id)
    requires multiset(records)[records[FindIndexById(records, id)]] == 1
    requires "updatedAt" !in records[FindIndexById(records, id)]
    ensures records[FindIndexById(records, id)] !in UpdateById(records, id, updates, now)
  {
    var k := FindIndexById(records, id);
    var rec := records[k];
    var after := UpdateById(records, id, updates, now);
    forall j | 0 <= j < |after|
      ensures after[j] != rec
    {
      if j == k {
        assert "updatedAt" in after[j];
      } else if after[j] == rec {
        if j < k { TwoIndicesCountTwice(records, j, k); } else { TwoIndicesCountTwice(records, k, j); }
      }
    }
  }
}
