// The in-memory parts of apps/api/src/services/reports/reportService.js:
// the aggregation loop of `getValidationSummary`, the filter of
// `getOverrides` and the carrier label of `getShipmentSummary`. The
// database queries are left out; their rows, in the order the query
// returns them, are the inputs, and each shipment's validation issues are
// given with it.

module Reports {
  import opened Wrappers
  import Json

  /** A shipment's `meta` column: empty, text that JSON.parse rejects, the
      text "null", or text parsed to a value whose `dismissedValidationCodes`
      may be absent (any other value than an object has none). */
  datatype Meta = NoMeta | Malformed | NullMeta | Parsed(dismissed: Option<seq<string>>)

  /** A sampled shipment with the codes of the issues validation found
      (None for an issue without a code). */
  datatype Sampled = Sampled(id: string, meta: Meta, issueCodes: seq<Option<string>>)

  /** One entry of `issueCounts`. */
  datatype Counter = Counter(code: string, count: nat, distinct: set<string>)

  /** `issueCounts` with its keys in insertion order. */
  datatype Tally = Tally(keys: seq<string>, counts: map<string, Counter>)

  datatype IssueRow = IssueRow(code: string, count: nat, affectedShipments: nat)

  datatype Summary = Summary(scannedCount: nat, activeIssues: seq<IssueRow>, totalDismissedOverrides: nat)

  const SampleSize: nat := 50
  const Unknown := "unknown"
  /** JSON.parse's exception; its text is the runtime's. */
  const MalformedMeta := "meta is not valid JSON"
  /** V8's TypeError for `meta.dismissedValidationCodes` when meta is null. */
  const NullMetaError := "Cannot read properties of null (reading 'dismissedValidationCodes')"
  /** V8's TypeError for `issueCounts[key].distinctShipments.add` when the
      key names an inherited property, so that no counter was created. */
  const InheritedCounterError := "Cannot read properties of undefined (reading 'add')"

  /** The query's `take`. */
  function Take<T>(xs: seq<T>, n: nat): (r: seq<T>)
    ensures |r| == if |xs| <= n then |xs| else n
    ensures r == xs[..|r|]
  {
    if |xs| <= n then xs else xs[..n]
  }

  /** `meta.dismissedValidationCodes || []` */
  function DismissedCodes(m: Meta): seq<string> {
    if m.Parsed? && m.dismissed.Some? then m.dismissed.value else []
  }

  /** `issue.code || 'unknown'` */
  function IssueKey(code: Option<string>): string {
    if code.Some? && code.value != "" then code.value else Unknown
  }

  /** `!dismissedCodes.includes(issue.code)` */
  predicate IsActive(code: Option<string>, dismissed: seq<string>) {
    !(code.Some? && code.value in dismissed)
  }

  /** Counting one issue of shipment `id` under `key`. */
  function Record(t: Tally, key: string, id: string): Tally {
    if key in t.counts then
      Tally(t.keys, t.counts[key := Counter(key, t.counts[key].count + 1, t.counts[key].distinct + {id})])
    else
      Tally(t.keys + [key], t.counts[key := Counter(key, 1, {id})])
  }

  /** The inner loop over the first j issues of a shipment. */
  function RecordIssues(t: Tally, s: Sampled, j: nat): Tally
    requires j <= |s.issueCodes|
  {
    if j == 0 then t
    else
      var prev := RecordIssues(t, s, j - 1);
      var code := s.issueCodes[j - 1];
      if IsActive(code, DismissedCodes(s.meta)) then Record(prev, IssueKey(code), s.id) else prev
  }

  /** The outer loop over the first n shipments. */
  function TallyUpTo(ss: seq<Sampled>, n: nat): Tally
    requires n <= |ss|
  {
    if n == 0 then Tally([], map[])
    else RecordIssues(TallyUpTo(ss, n - 1), ss[n - 1], |ss[n - 1].issueCodes|)
  }

  /** `dismissedCount` after n shipments. */
  function DismissedUpTo(ss: seq<Sampled>, n: nat): nat
    requires n <= |ss|
  {
    if n == 0 then 0 else DismissedUpTo(ss, n - 1) + |DismissedCodes(ss[n - 1].meta)|
  }

  /** Keys listed once each, exactly the counted codes, each counter named
      by its key, counted at least once and over no more shipments than
      issues. */
  ghost predicate WellFormed(t: Tally) {
    (forall k :: k in t.counts <==> k in t.keys)
    && (forall i, j :: 0 <= i < j < |t.keys| ==> t.keys[i] != t.keys[j])
    && (forall k :: k in t.counts ==> t.counts[k].code == k && 0 < |t.counts[k].distinct| <= t.counts[k].count)
  }

  lemma {:induction false} RecordWellFormed(t: Tally, key: string, id: string)
    requires WellFormed(t)
    ensures WellFormed(Record(t, key, id))
  {
    if key in t.counts {
      var c := t.counts[key];
      assert |c.distinct + {id}| <= |c.distinct| + 1;
    } else {
      var ks := t.keys + [key];
      assert forall i :: 0 <= i < |t.keys| ==> ks[i] == t.keys[i];
      assert |{id}| == 1;
    }
  }

  lemma {:induction false} RecordIssuesWellFormed(t: Tally, s: Sampled, j: nat)
    requires j <= |s.issueCodes| && WellFormed(t)
    ensures WellFormed(RecordIssues(t, s, j))
  {
    if j > 0 {
      RecordIssuesWellFormed(t, s, j - 1);
      var code := s.issueCodes[j - 1];
      if IsActive(code, DismissedCodes(s.meta)) {
        RecordWellFormed(RecordIssues(t, s, j - 1), IssueKey(code), s.id);
      }
    }
  }

  lemma {:induction false} TallyWellFormed(ss: seq<Sampled>, n: nat)
    requires n <= |ss|
    ensures WellFormed(TallyUpTo(ss, n))
  {
    if n > 0 {
      TallyWellFormed(ss, n - 1);
      RecordIssuesWellFormed(TallyUpTo(ss, n - 1), ss[n - 1], |ss[n - 1].issueCodes|);
    }
  }

  /** The rows of the tally, one per key in insertion order. */
  function Rows(t: Tally, keys: seq<string>): (rows: seq<IssueRow>)
    requires forall k :: k in keys ==> k in t.counts
    ensures |rows| == |keys|
    ensures forall i :: 0 <= i < |keys| ==>
      rows[i] == IssueRow(keys[i], t.counts[keys[i]].count, |t.counts[keys[i]].distinct|)
  {
    if keys == [] then []
    else [IssueRow(keys[0], t.counts[keys[0]].count, |t.counts[keys[0]].distinct|)] + Rows(t, keys[1..])
  }

  /** `sort((a, b) => b.count - a.count)`: a stable insertion of x before
      the first row whose count does not exceed its own. */
  function Insert(x: IssueRow, sorted: seq<IssueRow>): (r: seq<IssueRow>)
    ensures multiset(r) == multiset(sorted) + multiset{x}
    ensures |r| == |sorted| + 1
  {
    if sorted == [] || sorted[0].count <= x.count then [x] + sorted
    else
      assert sorted == [sorted[0]] + sorted[1..];
      [sorted[0]] + Insert(x, sorted[1..])
  }

  function SortByCount(rows: seq<IssueRow>): (r: seq<IssueRow>)
    ensures multiset(r) == multiset(rows)
  {
    if rows == [] then []
    else
      assert rows == [rows[0]] + rows[1..];
      Insert(rows[0], SortByCount(rows[1..]))
  }

  predicate SortedByCount(rows: seq<IssueRow>) {
    forall i, j :: 0 <= i < j < |rows| ==> rows[i].count >= rows[j].count
  }

  lemma {:induction false} InsertSorted(x: IssueRow, sorted: seq<IssueRow>)
    requires SortedByCount(sorted)
    ensures SortedByCount(Insert(x, sorted))
  {
    if !(sorted == [] || sorted[0].count <= x.count) {
      InsertSorted(x, sorted[1..]);
      var r := Insert(x, sorted[1..]);
      assert forall i :: 0 <= i < |r| ==> r[i] in multiset(sorted[1..]) + multiset{x};
      forall i | 0 <= i < |r| ensures sorted[0].count >= r[i].count {
        assert r[i] in multiset(sorted[1..]) + multiset{x};
        if r[i] != x {
          assert r[i] in sorted[1..];
        }
      }
    }
  }

  lemma {:induction false} SortSorted(rows: seq<IssueRow>)
    ensures SortedByCount(SortByCount(rows))
  {
    if rows != [] {
      SortSorted(rows[1..]);
      InsertSorted(rows[0], SortByCount(rows[1..]));
    }
  }

  /** Issue j of s is counted under a key every plain object inherits:
      `issueCounts[key]` is then truthy without a counter. */
  predicate CountsInherited(s: Sampled, j: nat)
    requires j < |s.issueCodes|
  {
    IsActive(s.issueCodes[j], DismissedCodes(s.meta)) && IssueKey(s.issueCodes[j]) in Json.ObjectPrototypeNames
  }

  /** The exception a shipment's turn of the loop throws, if any. */
  function ShipmentFailure(s: Sampled): (e: Option<string>)
    ensures e.None? <==>
      !s.meta.Malformed? && !s.meta.NullMeta? && forall j :: 0 <= j < |s.issueCodes| ==> !CountsInherited(s, j)
  {
    if s.meta.Malformed? then Some(MalformedMeta)
    else if s.meta.NullMeta? then Some(NullMetaError)
    else if exists j :: 0 <= j < |s.issueCodes| && CountsInherited(s, j) then Some(InheritedCounterError)
    else None
  }

  /** The first exception among the first n shipments. */
  function FirstFailure(ss: seq<Sampled>, n: nat): Option<string>
    requires n <= |ss|
  {
    if n == 0 then None
    else if FirstFailure(ss, n - 1).Some? then FirstFailure(ss, n - 1)
    else ShipmentFailure(ss[n - 1])
  }

  /** Once thrown, the first exception stays the result. */
  lemma {:induction false} FirstFailureKept(ss: seq<Sampled>, n: nat, m: nat)
    requires n <= m <= |ss| && FirstFailure(ss, n).Some?
    ensures FirstFailure(ss, m) == FirstFailure(ss, n)
    decreases m - n
  {
    if n < m {
      FirstFailureKept(ss, n + 1, m);
    }
  }

  /** No exception exactly when no shipment throws. */
  lemma {:induction false} FirstFailureNone(ss: seq<Sampled>, n: nat)
    requires n <= |ss|
    ensures FirstFailure(ss, n).None? <==> forall i :: 0 <= i < n ==> ShipmentFailure(ss[i]).None?
  {
    if n > 0 {
      FirstFailureNone(ss, n - 1);
    }
  }

  /** `getValidationSummary` over the rows the query returned. */
  function ValidationSummary(all: seq<Sampled>): Result<Summary, string> {
    var ss := Take(all, SampleSize);
    var failure := FirstFailure(ss, |ss|);
    if failure.Some? then Err(failure.value)
    else
      var t := TallyUpTo(ss, |ss|);
      TallyWellFormed(ss, |ss|);
      Ok(Summary(|ss|, SortByCount(Rows(t, t.keys)), DismissedUpTo(ss, |ss|)))
  }

  /** The summary fails exactly when some sampled shipment throws: a meta
      JSON.parse rejects, a meta of "null", or an active issue whose code
      names a property of Object.prototype ("constructor", "toString"). The
      first such shipment decides the exception. */
  lemma {:induction false} ValidationSummaryFails(all: seq<Sampled>, i: nat)
    ensures var ss := Take(all, SampleSize);
      ValidationSummary(all).Err? <==> exists k :: 0 <= k < |ss| && ShipmentFailure(ss[k]).Some?
    ensures var ss := Take(all, SampleSize);
      i < |ss| && (forall k :: 0 <= k < i ==> ShipmentFailure(ss[k]).None?) && ShipmentFailure(ss[i]).Some? ==>
        ValidationSummary(all) == Err(ShipmentFailure(ss[i]).value)
  {
    var ss := Take(all, SampleSize);
    FirstFailureNone(ss, |ss|);
    if i < |ss| && (forall k :: 0 <= k < i ==> ShipmentFailure(ss[k]).None?) && ShipmentFailure(ss[i]).Some? {
      FirstFailureNone(ss, i);
      FirstFailureKept(ss, i + 1, |ss|);
    }
  }

  method GetValidationSummary(all: seq<Sampled>) returns (r: Result<Summary, string>)
    ensures r == ValidationSummary(all)
  {
    var shipments := Take(all, SampleSize);
    var keys: seq<string> := [];
    var counts: map<string, Counter> := map[];
    var dismissedCount := 0;
    var i := 0;
    while i < |shipments|
      invariant 0 <= i <= |shipments|
      invariant Tally(keys, counts) == TallyUpTo(shipments, i)
      invariant dismissedCount == DismissedUpTo(shipments, i)
      invariant FirstFailure(shipments, i).None?
    {
      var shipment := shipments[i];
      if shipment.meta.Malformed? {
        FirstFailureKept(shipments, i + 1, |shipments|);
        return Err(MalformedMeta);
      }
      if shipment.meta.NullMeta? {
        FirstFailureKept(shipments, i + 1, |shipments|);
        return Err(NullMetaError);
      }
      var dismissedCodes := DismissedCodes(shipment.meta);
      dismissedCount := dismissedCount + |dismissedCodes|;
      var j := 0;
      while j < |shipment.issueCodes|
        invariant 0 <= j <= |shipment.issueCodes|
        invariant Tally(keys, counts) == RecordIssues(TallyUpTo(shipments, i), shipment, j)
        invariant forall k :: 0 <= k < j ==> !CountsInherited(shipment, k)
      {
        var code := shipment.issueCodes[j];
        if IsActive(code, dismissedCodes) {
          var key := IssueKey(code);
          if key in Json.ObjectPrototypeNames {
            assert CountsInherited(shipment, j);
            FirstFailureKept(shipments, i + 1, |shipments|);
            return Err(InheritedCounterError);
          }
          ghost var before := Tally(keys, counts);
          if key !in counts {
            counts := counts[key := Counter(key, 0, {})];
            keys := keys + [key];
          }
          counts := counts[key := Counter(key, counts[key].count + 1, counts[key].distinct + {shipment.id})];
          assert Tally(keys, counts) == Record(before, key, shipment.id) by {
            if key !in before.counts {
              assert {} + {shipment.id} == {shipment.id};
              assert counts == before.counts[key := Counter(key, 1, {shipment.id})];
            }
          }
        }
        j := j + 1;
      }
      assert ShipmentFailure(shipment).None?;
      i := i + 1;
    }
    var t := Tally(keys, counts);
    TallyWellFormed(shipments, |shipments|);
    return Ok(Summary(|shipments|, SortByCount(Rows(t, keys)), DismissedUpTo(shipments, |shipments|)));
  }

  /** How many issues of s count under key. */
  function Occurs(s: Sampled, key: string, j: nat): nat
    requires j <= |s.issueCodes|
  {
    if j == 0 then 0
    else
      var code := s.issueCodes[j - 1];
      Occurs(s, key, j - 1) + if IsActive(code, DismissedCodes(s.meta)) && IssueKey(code) == key then 1 else 0
  }

  function OccursIn(s: Sampled, key: string): nat { Occurs(s, key, |s.issueCodes|) }

  /** How many issues of the first n shipments count under key. */
  function KeyCount(ss: seq<Sampled>, n: nat, key: string): nat
    requires n <= |ss|
  {
    if n == 0 then 0 else KeyCount(ss, n - 1, key) + OccursIn(ss[n - 1], key)
  }

  /** A code's count in the tally, 0 when the code has no entry. */
  function CountOf(t: Tally, key: string): nat {
    if key in t.counts then t.counts[key].count else 0
  }

  function DistinctOf(t: Tally, key: string): set<string> {
    if key in t.counts then t.counts[key].distinct else {}
  }

  lemma {:induction false} RecordIssuesCounts(t: Tally, s: Sampled, j: nat, key: string)
    requires j <= |s.issueCodes|
    ensures CountOf(RecordIssues(t, s, j), key) == CountOf(t, key) + Occurs(s, key, j)
    ensures DistinctOf(RecordIssues(t, s, j), key) == DistinctOf(t, key) + (if Occurs(s, key, j) > 0 then {s.id} else {})
  {
    if j > 0 {
      RecordIssuesCounts(t, s, j - 1, key);
    }
  }

  /** The ids of the first n shipments having an active issue under key. */
  function AffectedIds(ss: seq<Sampled>, n: nat, key: string): set<string>
    requires n <= |ss|
  {
    if n == 0 then {} else AffectedIds(ss, n - 1, key) + if OccursIn(ss[n - 1], key) > 0 then {ss[n - 1].id} else {}
  }

  lemma {:induction false} AffectedIdsSpec(ss: seq<Sampled>, n: nat, key: string, id: string)
    requires n <= |ss|
    ensures id in AffectedIds(ss, n, key) <==> exists i :: 0 <= i < n && OccursIn(ss[i], key) > 0 && ss[i].id == id
  {
    if n > 0 {
      AffectedIdsSpec(ss, n - 1, key, id);
      if id in AffectedIds(ss, n - 1, key) {
        var i :| 0 <= i < n - 1 && OccursIn(ss[i], key) > 0 && ss[i].id == id;
        assert 0 <= i < n;
      }
    }
  }

  /** A code's count is the number of its active issues over the sample,
      and its shipments are those having one. */
  lemma {:induction false} TallyCounts(ss: seq<Sampled>, n: nat, key: string)
    requires n <= |ss|
    ensures CountOf(TallyUpTo(ss, n), key) == KeyCount(ss, n, key)
    ensures DistinctOf(TallyUpTo(ss, n), key) == AffectedIds(ss, n, key)
  {
    if n > 0 {
      TallyCounts(ss, n - 1, key);
      RecordIssuesCounts(TallyUpTo(ss, n - 1), ss[n - 1], |ss[n - 1].issueCodes|, key);
    }
  }

  /** The rows of a well-formed tally: one per counted code. */
  lemma {:induction false} RowsFor(t: Tally, key: string)
    requires WellFormed(t)
    ensures forall row :: row in Rows(t, t.keys) && row.code == key ==>
      key in t.counts && row == IssueRow(key, t.counts[key].count, |t.counts[key].distinct|)
    ensures key in t.counts ==> IssueRow(key, t.counts[key].count, |t.counts[key].distinct|) in Rows(t, t.keys)
  {
    var rows := Rows(t, t.keys);
    if key in t.counts {
      var i :| 0 <= i < |t.keys| && t.keys[i] == key;
      assert rows[i] in rows;
    }
  }

  /** An issue whose code the shipment dismissed never counts. */
  lemma {:induction false} DismissedNotCounted(s: Sampled, key: string, j: nat)
    requires j <= |s.issueCodes| && key != Unknown && key in DismissedCodes(s.meta)
    ensures Occurs(s, key, j) == 0
  {
    if j > 0 {
      DismissedNotCounted(s, key, j - 1);
    }
  }

  /** Sorting keeps exactly the rows it was given. */
  lemma {:induction false} SortMembers(rows: seq<IssueRow>, row: IssueRow)
    ensures row in SortByCount(rows) <==> row in rows
  {
    assert row in SortByCount(rows) <==> row in multiset(SortByCount(rows));
    assert row in rows <==> row in multiset(rows);
  }

  /** The summary's sample size, dismissed total and order: no more than
      50 shipments scanned, rows sorted by count with the largest first,
      and each row over no more shipments than issues. */
  lemma {:induction false} ValidationSummaryShape(all: seq<Sampled>)
    requires ValidationSummary(all).Ok?
    ensures var ss := Take(all, SampleSize); var r := ValidationSummary(all).value;
      && r.scannedCount == |ss| <= SampleSize
      && r.totalDismissedOverrides == DismissedUpTo(ss, |ss|)
      && SortedByCount(r.activeIssues)
      && (forall row :: row in r.activeIssues ==> 0 < row.affectedShipments <= row.count)
  {
    var ss := Take(all, SampleSize);
    var t := TallyUpTo(ss, |ss|);
    TallyWellFormed(ss, |ss|);
    var rows := Rows(t, t.keys);
    SortSorted(rows);
    forall row | row in SortByCount(rows) ensures 0 < row.affectedShipments <= row.count {
      SortMembers(rows, row);
    }
  }

  /** The summary has a row for a code exactly when some sampled shipment
      has an active issue with that code; the row counts those issues and
      the distinct shipments having one. */
  lemma {:induction false} ValidationSummaryRows(all: seq<Sampled>, key: string)
    requires ValidationSummary(all).Ok?
    ensures var ss := Take(all, SampleSize); var r := ValidationSummary(all).value;
      && ((exists row :: row in r.activeIssues && row.code == key) <==> KeyCount(ss, |ss|, key) > 0)
      && (forall row :: row in r.activeIssues && row.code == key ==>
            row.count == KeyCount(ss, |ss|, key) && row.affectedShipments == |AffectedIds(ss, |ss|, key)|)
  {
    var ss := Take(all, SampleSize);
    var t := TallyUpTo(ss, |ss|);
    TallyWellFormed(ss, |ss|);
    TallyCounts(ss, |ss|, key);
    RowsFor(t, key);
    var rows := Rows(t, t.keys);
    forall row | row in SortByCount(rows) ensures row in rows {
      SortMembers(rows, row);
    }
    if key in t.counts {
      SortMembers(rows, IssueRow(key, t.counts[key].count, |t.counts[key].distinct|));
    }
  }

  /** The carrier label of `getShipmentSummary`: a missing carrier code is
      "Unassigned". */
  function CarrierLabel(code: Option<string>): (shown: string)
    ensures code.Some? && code.value != "" ==> shown == code.value
    ensures code.None? || code.value == "" ==> shown == "Unassigned"
  {
    if code.Some? && code.value != "" then code.value else "Unassigned"
  }

  /** A shipment row read by `getOverrides`. */
  datatype Stored = Stored(id: string, erpOrderId: Option<string>, meta: Meta, updatedAt: string)

  datatype Override = Override(shipmentId: string, erpOrderId: Option<string>, dismissedCodes: seq<string>, updatedAt: string)

  const OverrideSampleSize: nat := 100

  /** A row with parsable meta and a non-empty dismissed list. */
  predicate HasOverride(s: Stored) {
    s.meta.Parsed? && s.meta.dismissed.Some? && |s.meta.dismissed.value| > 0
  }

  function OverrideOf(s: Stored): Override
    requires HasOverride(s)
  {
    Override(s.id, s.erpOrderId, s.meta.dismissed.value, s.updatedAt)
  }

  /** The overrides of the first n rows, in row order. */
  function OverridesUpTo(ss: seq<Stored>, n: nat): seq<Override>
    requires n <= |ss|
  {
    if n == 0 then []
    else OverridesUpTo(ss, n - 1) + if HasOverride(ss[n - 1]) then [OverrideOf(ss[n - 1])] else []
  }

  /** `getOverrides`: the loop pushes an entry per qualifying row; a
      malformed or null meta throws inside the `try` and is skipped. */
  method GetOverrides(all: seq<Stored>) returns (overrides: seq<Override>)
    ensures overrides == OverridesUpTo(Take(all, OverrideSampleSize), |Take(all, OverrideSampleSize)|)
  {
    var shipments := Take(all, OverrideSampleSize);
    overrides := [];
    var i := 0;
    while i < |shipments|
      invariant 0 <= i <= |shipments|
      invariant overrides == OverridesUpTo(shipments, i)
    {
      var s := shipments[i];
      if s.meta.Parsed? {
        if s.meta.dismissed.Some? && |s.meta.dismissed.value| > 0 {
          overrides := overrides + [OverrideOf(s)];
        }
      }
      i := i + 1;
    }
  }

  /** An override is reported exactly for the rows with a non-empty
      dismissed list, and never more than there are rows. */
  lemma {:induction false} OverridesSpec(ss: seq<Stored>, n: nat, o: Override)
    requires n <= |ss|
    ensures |OverridesUpTo(ss, n)| <= n
    ensures o in OverridesUpTo(ss, n) <==> exists i :: 0 <= i < n && HasOverride(ss[i]) && o == OverrideOf(ss[i])
    ensures forall x :: x in OverridesUpTo(ss, n) ==> |x.dismissedCodes| > 0
  {
    if n > 0 {
      OverridesSpec(ss, n - 1, o);
      if o in OverridesUpTo(ss, n - 1) {
        var i :| 0 <= i < n - 1 && HasOverride(ss[i]) && o == OverrideOf(ss[i]);
        assert 0 <= i < n;
      }
    }
  }
}
