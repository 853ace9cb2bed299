/** The search, filter and sort logic of the medical-records dashboard
    (`filteredRecords`) and its two badge mappings. */
module RecordsDashboard {
  import opened JsStrings
  import Seqs

  datatype DashRecord = DashRecord(
    id: string,
    healthId: string,
    patientName: string,
    recordType: string,
    date: string,          // "YYYY-MM-DD"
    hospital: string,
    doctor: string,
    diagnosis: string,
    status: string,        // "active" | "archived" | "pending"
    priority: string)      // "high" | "medium" | "low"

  /** The three sort orders the dashboard offers: by date, patient name or hospital. */
  datatype SortKey = ByDate | ByName | ByHospital

  /** The text filter: the lower-cased query occurs in the lower-cased Health
      ID, patient name, hospital, doctor or diagnosis. */
  predicate MatchesQuery(r: DashRecord, lowerQuery: string)
  {
    || Includes(ToLower(r.healthId), lowerQuery)
    || Includes(ToLower(r.patientName), lowerQuery)
    || Includes(ToLower(r.hospital), lowerQuery)
    || Includes(ToLower(r.doctor), lowerQuery)
    || Includes(ToLower(r.diagnosis), lowerQuery)
  }

  /** The text filter as `filteredRecords` applies it: a blank query (after
      `trim`) filters nothing; a non-blank one is lower-cased but not trimmed. */
  predicate PassesText(r: DashRecord, query: string)
  {
    Trim(query) != "" ==> MatchesQuery(r, ToLower(query))
  }

  /** "all" switches the type filter off. */
  predicate PassesType(r: DashRecord, filterType: string)
  {
    filterType != "all" ==> r.recordType == filterType
  }

  /** "all" switches the status filter off. */
  predicate PassesStatus(r: DashRecord, filterStatus: string)
  {
    filterStatus != "all" ==> r.status == filterStatus
  }

  predicate PassesFilters(r: DashRecord, query: string, filterType: string, filterStatus: string)
  {
    PassesText(r, query) && PassesType(r, filterType) && PassesStatus(r, filterStatus)
  }

  /** The text filter, switched off by a blank query. */
  function TextFilter(records: seq<DashRecord>, query: string): (kept: seq<DashRecord>)
    ensures forall r :: multiset(kept)[r] == if PassesText(r, query) then multiset(records)[r] else 0
  {
    if Trim(query) != "" then
      var lowerQuery := ToLower(query);
      Seqs.Filter(records, r => MatchesQuery(r, lowerQuery))
    else records
  }

  /** The record-type filter, switched off by "all". */
  function TypeFilter(records: seq<DashRecord>, filterType: string): (kept: seq<DashRecord>)
    ensures forall r :: multiset(kept)[r] == if PassesType(r, filterType) then multiset(records)[r] else 0
  {
    if filterType != "all" then Seqs.Filter(records, (r: DashRecord) => r.recordType == filterType)
    else records
  }

  /** The status filter, switched off by "all". */
  function StatusFilter(records: seq<DashRecord>, filterStatus: string): (kept: seq<DashRecord>)
    ensures forall r :: multiset(kept)[r] == if PassesStatus(r, filterStatus) then multiset(records)[r] else 0
  {
    if filterStatus != "all" then Seqs.Filter(records, (r: DashRecord) => r.status == filterStatus)
    else records
  }

  /** `a` may come before `b` under the comparator: newest date first (ISO
      dates order as their strings do), or ascending patient name, or
      ascending hospital. */
  predicate InOrder(a: DashRecord, b: DashRecord, key: SortKey)
  {
    match key
    case ByDate => StrLe(b.date, a.date)
    case ByName => StrLe(a.patientName, b.patientName)
    case ByHospital => StrLe(a.hospital, b.hospital)
  }

  lemma InOrderTotal(a: DashRecord, b: DashRecord, key: SortKey)
    ensures InOrder(a, b, key) || InOrder(b, a, key)
  {
    match key
    case ByDate => StrLeTotal(a.date, b.date);
    case ByName => StrLeTotal(a.patientName, b.patientName);
    case ByHospital => StrLeTotal(a.hospital, b.hospital);
  }

  lemma InOrderTransitive(a: DashRecord, b: DashRecord, c: DashRecord, key: SortKey)
    requires InOrder(a, b, key) && InOrder(b, c, key)
    ensures InOrder(a, c, key)
  {
    match key
    case ByDate => StrLeTransitive(c.date, b.date, a.date);
    case ByName => StrLeTransitive(a.patientName, b.patientName, c.patientName);
    case ByHospital => StrLeTransitive(a.hospital, b.hospital, c.hospital);
  }

  ghost predicate SortedBy(s: seq<DashRecord>, key: SortKey)
  {
    forall p, q :: 0 <= p < q < |s| ==> InOrder(s[p], s[q], key)
  }

  /** The first `n` records are in comparator order. */
  ghost predicate SortedPrefix(s: seq<DashRecord>, n: int, key: SortKey)
    requires 0 <= n <= |s|
  {
    forall p, q :: 0 <= p < q < n ==> InOrder(s[p], s[q], key)
  }

  /** Midway through inserting `s[i]`: it now sits at `j`, the records up to
      `i` other than it are in order, and it may precede every record after it. */
  ghost predicate Inserting(s: seq<DashRecord>, j: int, i: int, key: SortKey)
  {
    && 0 <= j <= i < |s|
    && (forall p, q :: 0 <= p < q <= i && p != j && q != j ==> InOrder(s[p], s[q], key))
    && (forall q :: j < q <= i ==> InOrder(s[j], s[q], key))
  }

  function SwapDown(s: seq<DashRecord>, j: int): (t: seq<DashRecord>)
    requires 0 < j < |s|
    ensures |t| == |s| && multiset(t) == multiset(s)
  {
    s[j - 1 := s[j]][j := s[j - 1]]
  }

  /** Swapping the inserted record with a predecessor that may not precede it
      keeps the insertion state, one place further left. */
  lemma SwapDownKeepsInserting(s: seq<DashRecord>, j: int, i: int, key: SortKey)
    requires Inserting(s, j, i, key) && 0 < j && !InOrder(s[j - 1], s[j], key)
    ensures Inserting(SwapDown(s, j), j - 1, i, key)
  {
    InOrderTotal(s[j - 1], s[j], key);
  }

  /** Once the inserted record may follow its predecessor (or is first), the
      whole prefix up to `i` is in order. */
  lemma InsertingDone(s: seq<DashRecord>, j: int, i: int, key: SortKey)
    requires Inserting(s, j, i, key) && (j == 0 || InOrder(s[j - 1], s[j], key))
    ensures SortedPrefix(s, i + 1, key)
  {
    forall p, q | 0 <= p < q <= i
      ensures InOrder(s[p], s[q], key)
    {
      if q == j && p < j - 1 {
        InOrderTransitive(s[p], s[j - 1], s[j], key);
      }
    }
  }

  /** One pass of the sort: the record at `i` moves left past every record
      that may not precede it, so the sorted prefix grows by one. */
  method InsertLast(a: array<DashRecord>, i: int, key: SortKey)
    requires 0 <= i < a.Length && SortedPrefix(a[..], i, key)
    modifies a
    ensures SortedPrefix(a[..], i + 1, key)
    ensures multiset(a[..]) == multiset(old(a[..]))
  {
    var j := i;
    while 0 < j && !InOrder(a[j - 1], a[j], key)
      invariant Inserting(a[..], j, i, key)
      invariant multiset(a[..]) == multiset(old(a[..]))
    {
      ghost var before := a[..];
      SwapDownKeepsInserting(before, j, i, key);
      a[j - 1], a[j] := a[j], a[j - 1];
      assert a[..] == SwapDown(before, j);
      j := j - 1;
    }
    InsertingDone(a[..], j, i, key);
  }

  /** The dashboard's sort, on the array in place: afterwards it is sorted
      under the comparator and holds the same records as before. */
  method SortInPlace(a: array<DashRecord>, key: SortKey)
    modifies a
    ensures SortedBy(a[..], key)
    ensures multiset(a[..]) == multiset(old(a[..]))
  {
    var i := 0;
    while i < a.Length
      invariant 0 <= i <= a.Length
      invariant SortedPrefix(a[..], i, key)
      invariant multiset(a[..]) == multiset(old(a[..]))
    {
      InsertLast(a, i, key);
      i := i + 1;
    }
  }

  /** The records of `s` in comparator order, sorted in a fresh array. */
  method SortedCopy(s: seq<DashRecord>, key: SortKey) returns (sorted: seq<DashRecord>)
    ensures SortedBy(sorted, key)
    ensures multiset(sorted) == multiset(s)
  {
    var a := new DashRecord[|s|](i requires 0 <= i < |s| => s[i]);
    assert a[..] == s;
    SortInPlace(a, key);
    sorted := a[..];
  }

  /** The three filters of `filteredRecords`, one after the other. */
  function ApplyFilters(records: seq<DashRecord>, query: string, filterType: string, filterStatus: string)
    : (kept: seq<DashRecord>)
    ensures forall r ::
      multiset(kept)[r] == if PassesFilters(r, query, filterType, filterStatus) then multiset(records)[r] else 0
  {
    StatusFilter(TypeFilter(TextFilter(records, query), filterType), filterStatus)
  }

  /** A sequence whose multiplicities are those of `records` restricted to the
      records passing the filters holds exactly those records. */
  lemma CountsGiveMembers(s: seq<DashRecord>, records: seq<DashRecord>, query: string,
                          filterType: string, filterStatus: string)
    requires forall r ::
      multiset(s)[r] == if PassesFilters(r, query, filterType, filterStatus) then multiset(records)[r] else 0
    ensures forall r :: r in s <==> r in records && PassesFilters(r, query, filterType, filterStatus)
  {
    forall r
      ensures r in s <==> r in records && PassesFilters(r, query, filterType, filterStatus)
    {
      assert r in s <==> multiset(s)[r] > 0;
      assert r in records <==> multiset(records)[r] > 0;
    }
  }

  /** `filteredRecords`: the text, type and status filters applied one after
      the other, then the sort. The result holds each record of `records`
      that passes all three filters, as many times as `records` does, and
      nothing else, in comparator order. */
  method FilteredRecords(records: seq<DashRecord>, query: string, filterType: string,
                         filterStatus: string, sortBy: SortKey)
    returns (results: seq<DashRecord>)
    ensures forall r :: r in results <==> r in records && PassesFilters(r, query, filterType, filterStatus)
    ensures forall r ::
      multiset(results)[r] == if PassesFilters(r, query, filterType, filterStatus) then multiset(records)[r] else 0
    ensures SortedBy(results, sortBy)
  {
    var kept := ApplyFilters(records, query, filterType, filterStatus);
    results := SortedCopy(kept, sortBy);
    CountsGiveMembers(results, records, query, filterType, filterStatus);
  }

  /** `getPriorityColor`: the badge variant for a priority. */
  function PriorityVariant(priority: string): (variant: string)
    ensures variant in {"destructive", "default", "secondary"}
    ensures variant == "destructive" <==> priority == "high"
    ensures variant == "secondary" <==> priority == "low"
  {
    match priority
    case "high" => "destructive"
    case "medium" => "default"
    case "low" => "secondary"
    case _ => "default"
  }

  /** `getStatusColor`: the card classes for a status; the three known
      statuses get three different classes and everything else the neutral one. */
  function StatusClasses(status: string): (classes: string)
    ensures status == "active" ==> classes == "bg-green-900/30 border-green-700"
    ensures status == "archived" ==> classes == "bg-gray-900/30 border-gray-700"
    ensures status == "pending" ==> classes == "bg-yellow-900/30 border-yellow-700"
    ensures classes == "bg-card/50 border-border" <==> status !in {"active", "archived", "pending"}
  {
    match status
    case "active" => "bg-green-900/30 border-green-700"
    case "archived" => "bg-gray-900/30 border-gray-700"
    case "pending" => "bg-yellow-900/30 border-yellow-700"
    case _ => "bg-card/50 border-border"
  }
}
