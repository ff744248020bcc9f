/** The stored upload history: updates replace rows of the same file in place, new rows go to
    the end, and the oldest rows make room. Memory changes only after the file was written. */
module HistoryStore {
  import opened Outcomes
  import opened LogFiles
  import opened UploadJobs

  const MAX_HISTORY_RECORDS: nat := 10_000

  datatype StoreError = InvalidConfiguration | TooLarge | InvalidRecord | DuplicateIdentity | SerializationFailed | FileFailed

  function Identity(row: Record): LogFile {
    Key(row.file)
  }

  ghost predicate Unique(rows: seq<Record>) {
    forall i, j :: 0 <= i < j < |rows| ==> Identity(rows[i]) != Identity(rows[j])
  }

  predicate Has(rows: seq<Record>, id: LogFile) {
    exists i :: 0 <= i < |rows| && Identity(rows[i]) == id
  }

  // ---------------------------------------------------------------- the simple merge

  /** The update of the row, or the row itself. */
  function Replacement(row: Record, updates: seq<Record>): (r: Record)
    ensures Identity(r) == Identity(row)
    ensures !Has(updates, Identity(row)) ==> r == row
    ensures Has(updates, Identity(row)) ==> r in updates
  {
    if updates == [] then row
    else
      var last := updates[|updates| - 1];
      if Identity(last) == Identity(row) then last
      else
        assert forall i :: 0 <= i < |updates| - 1 ==> updates[..|updates| - 1][i] == updates[i];
        Replacement(row, updates[..|updates| - 1])
  }

  function Replaced(rows: seq<Record>, updates: seq<Record>): seq<Record> {
    seq(|rows|, i requires 0 <= i < |rows| => Replacement(rows[i], updates))
  }

  /** The updates of files that the rows do not have, in order. */
  function Added(rows: seq<Record>, updates: seq<Record>): (r: seq<Record>)
    ensures forall k :: 0 <= k < |r| ==> r[k] in updates && !Has(rows, Identity(r[k]))
  {
    if updates == [] then []
    else
      var last := updates[|updates| - 1];
      Added(rows, updates[..|updates| - 1]) + (if Has(rows, Identity(last)) then [] else [last])
  }

  function Newest(rows: seq<Record>, capacity: nat): seq<Record> {
    if |rows| > capacity then rows[|rows| - capacity..] else rows
  }

  /** What a merge keeps. */
  function Merged(rows: seq<Record>, updates: seq<Record>, capacity: nat): seq<Record> {
    Newest(Replaced(rows, updates) + Added(rows, updates), capacity)
  }

  // ---------------------------------------------------------------- one update after the other

  function PositionOf(rows: seq<Record>, id: LogFile): (r: Option<nat>)
    ensures r.Some? ==> r.value < |rows| && Identity(rows[r.value]) == id
    ensures r.None? <==> !Has(rows, id)
  {
    if rows == [] then None
    else if Identity(rows[|rows| - 1]) == id then Some(|rows| - 1)
    else
      assert forall i :: 0 <= i < |rows| - 1 ==> rows[..|rows| - 1][i] == rows[i];
      PositionOf(rows[..|rows| - 1], id)
  }

  function Upsert(rows: seq<Record>, update: Record): seq<Record> {
    var position := PositionOf(rows, Identity(update));
    if position.Some? then rows[position.value := update] else rows + [update]
  }

  function UpsertAll(rows: seq<Record>, updates: seq<Record>): seq<Record> {
    if updates == [] then rows else Upsert(UpsertAll(rows, updates[..|updates| - 1]), updates[|updates| - 1])
  }

  lemma UniquePosition(rows: seq<Record>, id: LogFile, i: nat)
    requires Unique(rows) && i < |rows| && Identity(rows[i]) == id
    ensures PositionOf(rows, id) == Some(i)
  {
    assert Has(rows, id);
  }

  lemma UniquePrefix(rows: seq<Record>)
    requires Unique(rows) && rows != []
    ensures Unique(rows[..|rows| - 1]) && !Has(rows[..|rows| - 1], Identity(rows[|rows| - 1]))
  {
  }

  lemma UpsertKeepsUnique(rows: seq<Record>, update: Record)
    requires Unique(rows)
    ensures Unique(Upsert(rows, update))
    ensures forall id :: Has(Upsert(rows, update), id) <==> Has(rows, id) || id == Identity(update)
  {
    var after := Upsert(rows, update);
    var position := PositionOf(rows, Identity(update));
    var at := if position.Some? then position.value else |rows|;
    assert after[at] == update;
    forall id | Has(rows, id) ensures Has(after, id) {
      var i :| 0 <= i < |rows| && Identity(rows[i]) == id;
      assert Identity(after[i]) == id;
    }
  }

  /** A last update of a row at hand replaces it and nothing else. */
  lemma ReplacedByLast(rows: seq<Record>, updates: seq<Record>, i: nat)
    requires Unique(rows) && updates != [] && i < |rows| && Identity(rows[i]) == Identity(updates[|updates| - 1])
    ensures Replaced(rows, updates) == Replaced(rows, updates[..|updates| - 1])[i := updates[|updates| - 1]]
  {
  }

  lemma ReplacedByNone(rows: seq<Record>, updates: seq<Record>)
    requires updates != [] && !Has(rows, Identity(updates[|updates| - 1]))
    ensures Replaced(rows, updates) == Replaced(rows, updates[..|updates| - 1])
  {
  }

  lemma ReplacedHasSame(rows: seq<Record>, updates: seq<Record>, id: LogFile)
    ensures Has(Replaced(rows, updates), id) <==> Has(rows, id)
  {
    if Has(rows, id) {
      var i :| 0 <= i < |rows| && Identity(rows[i]) == id;
      assert Identity(Replaced(rows, updates)[i]) == id;
    }
  }

  lemma HasInEither(a: seq<Record>, b: seq<Record>, id: LogFile)
    ensures Has(a + b, id) <==> Has(a, id) || Has(b, id)
  {
    if Has(a, id) {
      var i :| 0 <= i < |a| && Identity(a[i]) == id;
      assert Identity((a + b)[i]) == id;
    }
    if Has(b, id) {
      var i :| 0 <= i < |b| && Identity(b[i]) == id;
      assert Identity((a + b)[|a| + i]) == id;
    }
  }

  lemma AddedComesFromUpdates(rows: seq<Record>, updates: seq<Record>, id: LogFile)
    requires !Has(updates, id)
    ensures !Has(Added(rows, updates), id)
  {
  }

  lemma UpsertInPlace(kept: seq<Record>, added: seq<Record>, last: Record, i: nat)
    requires Unique(kept + added) && i < |kept| && Identity(kept[i]) == Identity(last)
    ensures Upsert(kept + added, last) == kept[i := last] + added
  {
    UniquePosition(kept + added, Identity(last), i);
    assert (kept + added)[i := last] == kept[i := last] + added;
  }

  lemma NothingAdded(rows: seq<Record>, updates: seq<Record>)
    requires updates != [] && Has(rows, Identity(updates[|updates| - 1]))
    ensures Added(rows, updates) == Added(rows, updates[..|updates| - 1])
  {
    assert Added(rows, updates) == Added(rows, updates[..|updates| - 1]) + [];
  }

  lemma MergeReplacing(rows: seq<Record>, updates: seq<Record>, i: nat, kept: seq<Record>, added: seq<Record>)
    requires Unique(rows) && updates != [] && i < |rows| && Identity(rows[i]) == Identity(updates[|updates| - 1])
    requires kept == Replaced(rows, updates[..|updates| - 1]) && added == Added(rows, updates[..|updates| - 1]) && Unique(kept + added)
    ensures Upsert(kept + added, updates[|updates| - 1]) == Replaced(rows, updates) + Added(rows, updates)
  {
    ReplacedByLast(rows, updates, i);
    NothingAdded(rows, updates);
    UpsertInPlace(kept, added, updates[|updates| - 1], i);
  }

  lemma MergeAppending(rows: seq<Record>, updates: seq<Record>)
    requires updates != [] && !Has(rows, Identity(updates[|updates| - 1])) && !Has(updates[..|updates| - 1], Identity(updates[|updates| - 1]))
    ensures Upsert(Replaced(rows, updates[..|updates| - 1]) + Added(rows, updates[..|updates| - 1]), updates[|updates| - 1])
         == Replaced(rows, updates) + Added(rows, updates)
  {
    var before, last := updates[..|updates| - 1], updates[|updates| - 1];
    HasInEither(Replaced(rows, before), Added(rows, before), Identity(last));
    ReplacedHasSame(rows, before, Identity(last));
    AddedComesFromUpdates(rows, before, Identity(last));
    ReplacedByNone(rows, updates);
    assert (Replaced(rows, before) + Added(rows, before)) + [last] == Replaced(rows, before) + (Added(rows, before) + [last]);
  }

  /** Taking the updates one by one, through whatever index, is the simple merge: replace in
      place, then append in order. */
  lemma {:induction false} UpsertingIsMerging(rows: seq<Record>, updates: seq<Record>)
    requires Unique(rows) && Unique(updates)
    ensures UpsertAll(rows, updates) == Replaced(rows, updates) + Added(rows, updates)
    ensures Unique(UpsertAll(rows, updates))
  {
    if updates != [] {
      var before, last := updates[..|updates| - 1], updates[|updates| - 1];
      UniquePrefix(updates);
      UpsertingIsMerging(rows, before);
      UpsertKeepsUnique(UpsertAll(rows, before), last);
      if Has(rows, Identity(last)) {
        var i :| 0 <= i < |rows| && Identity(rows[i]) == Identity(last);
        MergeReplacing(rows, updates, i, Replaced(rows, before), Added(rows, before));
      } else {
        MergeAppending(rows, updates);
      }
    } else {
      assert Replaced(rows, updates) + Added(rows, updates) == rows;
    }
  }

  /** What a merge keeps is unique, fits, and leaves every surviving row alone that no update
      is about; and an update that survives is kept as it is. */
  lemma MergeKeepsOthers(rows: seq<Record>, updates: seq<Record>, capacity: nat, row: Record)
    requires Unique(rows) && Unique(updates)
    ensures var merged := Merged(rows, updates, capacity);
            && Unique(merged) && |merged| <= capacity
            && (row in merged && !Has(updates, Identity(row)) ==> row in rows)
            && (row in merged && Has(updates, Identity(row)) ==> row in updates)
  {
    UpsertingIsMerging(rows, updates);
    var all := Replaced(rows, updates) + Added(rows, updates);
    var merged := Merged(rows, updates, capacity);
    if row in merged {
      assert row in all;
      if row in Replaced(rows, updates) {
        var i :| 0 <= i < |rows| && Replacement(rows[i], updates) == row;
        assert Identity(row) == Identity(rows[i]);
      } else {
        var k :| 0 <= k < |Added(rows, updates)| && Added(rows, updates)[k] == row;
        assert row in updates;
      }
    }
  }

  /** Row i after a merge without a limit: the update of its file if there is one, and itself otherwise. */
  predicate IsUpdated(row: Record, merged: Record, updates: seq<Record>) {
    if Has(updates, Identity(row)) then merged in updates && Identity(merged) == Identity(row) else merged == row
  }

  /** Without a limit every row stays in its place and every update is there. */
  lemma NothingIsLost(rows: seq<Record>, updates: seq<Record>)
    requires Unique(rows) && Unique(updates)
    ensures var all := UpsertAll(rows, updates);
            && |rows| <= |all| <= |rows| + |updates|
            && (forall i :: 0 <= i < |rows| ==> IsUpdated(rows[i], all[i], updates))
            && (forall k :: |rows| <= k < |all| ==> all[k] in updates && !Has(rows, Identity(all[k])))
            && (forall u :: u in updates ==> u in all)
  {
    UpsertingIsMerging(rows, updates);
    AddedCounts(rows, updates);
    var all := UpsertAll(rows, updates);
    forall u | u in updates ensures u in all {
      if Has(rows, Identity(u)) {
        var i :| 0 <= i < |rows| && Identity(rows[i]) == Identity(u);
        assert all[i] == Replacement(rows[i], updates) && Identity(all[i]) == Identity(u);
        OneUpdateEach(updates, all[i], u);
      } else {
        NewRowsAreAdded(rows, updates, u);
        assert u in Added(rows, updates);
      }
    }
  }

  lemma OneUpdateEach(updates: seq<Record>, a: Record, b: Record)
    requires Unique(updates) && a in updates && b in updates && Identity(a) == Identity(b)
    ensures a == b
  {
  }

  lemma {:induction false} AddedCounts(rows: seq<Record>, updates: seq<Record>)
    ensures |Added(rows, updates)| <= |updates|
  {
    if updates != [] {
      AddedCounts(rows, updates[..|updates| - 1]);
    }
  }

  lemma {:induction false} NewRowsAreAdded(rows: seq<Record>, updates: seq<Record>, u: Record)
    requires u in updates && !Has(rows, Identity(u))
    ensures u in Added(rows, updates)
  {
    if u != updates[|updates| - 1] {
      assert u in updates[..|updates| - 1];
      NewRowsAreAdded(rows, updates[..|updates| - 1], u);
    }
  }

  /** With a limit the newest rows stay, in order: what goes is the oldest. */
  lemma OldestMakeRoom(rows: seq<Record>, updates: seq<Record>, capacity: nat, i: nat)
    requires Unique(rows) && Unique(updates)
    ensures var all, merged := UpsertAll(rows, updates), Merged(rows, updates, capacity);
            && |merged| == (if |all| < capacity then |all| else capacity)
            && (i < |merged| ==> merged[|merged| - 1 - i] == all[|all| - 1 - i])
  {
    UpsertingIsMerging(rows, updates);
  }

  /** Two rows are of one file exactly if size, time and path agree, the path up to the long form of a
      drive or share. */
  lemma SameFileIff(a: Record, b: Record)
    ensures Identity(a) == Identity(b) <==>
              && a.file.size == b.file.size && a.file.lastWrite == b.file.lastWrite && a.file.path.components == b.file.path.components
              && SameRoot(a.file.path.prefix, b.file.path.prefix)
  {
  }

  predicate SameRoot(a: Prefix, b: Prefix) {
    a == b
    || (a.Disk? && b == VerbatimDisk(a.drive)) || (b.Disk? && a == VerbatimDisk(b.drive))
    || (a.Share? && b == VerbatimShare(a.server, a.share)) || (b.Share? && a == VerbatimShare(b.server, b.share))
  }

  // ---------------------------------------------------------------- the store

  /** Which of a record's own fields are storable is not part of this model. */
  ghost predicate Valid(rows: seq<Record>, capacity: nat, storable: Record -> bool) {
    Unique(rows) && |rows| <= capacity && forall i :: 0 <= i < |rows| ==> storable(rows[i])
  }

  method ValidateRecords(rows: seq<Record>, capacity: nat, storable: Record -> bool) returns (error: Option<StoreError>)
    ensures error.None? <==> 1 <= capacity <= MAX_HISTORY_RECORDS && Valid(rows, capacity, storable)
    ensures error == Some(InvalidConfiguration) <==> !(1 <= capacity <= MAX_HISTORY_RECORDS)
    ensures 1 <= capacity <= MAX_HISTORY_RECORDS ==> (error == Some(TooLarge) <==> |rows| > capacity)
  {
    if !(1 <= capacity <= MAX_HISTORY_RECORDS) {
      return Some(InvalidConfiguration);
    }
    if |rows| > capacity {
      return Some(TooLarge);
    }
    var identities: set<LogFile> := {};
    for k := 0 to |rows|
      invariant forall i :: 0 <= i < k ==> storable(rows[i]) && Identity(rows[i]) in identities
      invariant forall id :: id in identities ==> exists i :: 0 <= i < k && Identity(rows[i]) == id
      invariant forall i, j :: 0 <= i < j < k ==> Identity(rows[i]) != Identity(rows[j])
    {
      if !storable(rows[k]) {
        return Some(InvalidRecord);
      }
      if Identity(rows[k]) in identities {
        return Some(DuplicateIdentity);
      }
      identities := identities + {Identity(rows[k])};
    }
    return None;
  }

  /** The positions of all identities. */
  ghost predicate Indexes(indices: map<LogFile, nat>, rows: seq<Record>) {
    && (forall id :: id in indices ==> indices[id] < |rows| && Identity(rows[indices[id]]) == id)
    && (forall i :: 0 <= i < |rows| ==> Identity(rows[i]) in indices)
  }

  lemma IndexIsPosition(indices: map<LogFile, nat>, rows: seq<Record>, id: LogFile)
    requires Indexes(indices, rows) && Unique(rows)
    ensures id in indices <==> PositionOf(rows, id).Some?
    ensures id in indices ==> PositionOf(rows, id) == Some(indices[id])
  {
    if id in indices {
      UniquePosition(rows, id, indices[id]);
    }
  }

  method Index(rows: seq<Record>) returns (indices: map<LogFile, nat>)
    requires Unique(rows)
    ensures Indexes(indices, rows)
  {
    indices := map[];
    for i := 0 to |rows|
      invariant Indexes(indices, rows[..i])
    {
      indices := indices[Identity(rows[i]) := i];
    }
    assert rows[..|rows|] == rows;
  }

  /** The updates through the hash index. */
  method MergeIndexed(rows: seq<Record>, updates: seq<Record>) returns (merged: seq<Record>)
    requires Unique(rows)
    ensures merged == UpsertAll(rows, updates) && Unique(merged)
  {
    var indices: map<LogFile, nat> := Index(rows);
    merged := rows;
    for k := 0 to |updates|
      invariant merged == UpsertAll(rows, updates[..k]) && Unique(merged) && Indexes(indices, merged)
    {
      var update := updates[k];
      IndexIsPosition(indices, merged, Identity(update));
      UpsertKeepsUnique(merged, update);
      assert updates[..k + 1][..k] == updates[..k];
      if Identity(update) in indices {
        merged := merged[indices[Identity(update)] := update];
      } else {
        indices := indices[Identity(update) := |merged|];
        merged := merged + [update];
      }
    }
    assert updates[..|updates|] == updates;
  }

  class JsonUploadHistoryStore {
    const capacity: nat
    const storable: Record -> bool
    var records: seq<Record>
    var written: seq<Record>
    var recovering: bool

    /** The rows in memory satisfy what a stored document must. */
    ghost predicate Sound()
      reads this
    {
      1 <= capacity <= MAX_HISTORY_RECORDS && Valid(records, capacity, storable)
    }

    constructor (capacity: nat, storable: Record -> bool, loaded: seq<Record>, recovering: bool)
      requires 1 <= capacity <= MAX_HISTORY_RECORDS && Valid(loaded, capacity, storable)
      ensures Sound() && records == loaded && this.capacity == capacity && this.storable == storable
    {
      this.capacity, this.storable, records, written, this.recovering := capacity, storable, loaded, loaded, recovering;
    }

    /** Merges and writes; `encoded` is the serializer's refusal, if any, and `saved` whether the
        file system took the document. Checking the merged rows again cannot fail. */
    method MergeAndSave(updates: seq<Record>, encoded: Option<StoreError>, saved: bool) returns (error: Option<StoreError>)
      requires Sound()
      modifies this
      ensures Sound()
      ensures error.Some? ==> records == old(records) && recovering == old(recovering)
      ensures error.None? ==> records == Merged(old(records), updates, capacity) && written == records && !recovering
      ensures error.None? <==> Valid(updates, MAX_HISTORY_RECORDS, storable) && encoded.None? && saved
      ensures Valid(updates, MAX_HISTORY_RECORDS, storable) ==> error == if encoded.Some? then encoded else if !saved then Some(FileFailed) else None
    {
      error := ValidateRecords(updates, MAX_HISTORY_RECORDS, storable);
      if error.Some? {
        return;
      }
      var merged := MergeIndexed(records, updates);
      UpsertingIsMerging(records, updates);
      var excess := if |merged| > capacity then |merged| - capacity else 0;
      merged := merged[excess..];
      MergedRowsAreStorable(records, updates, capacity, storable);
      var refused := ValidateRecords(merged, capacity, storable);
      assert refused.None?;
      if encoded.Some? {
        return encoded;
      }
      if !saved {
        return Some(FileFailed);
      }
      written := merged;
      records := merged;
      recovering := false;
    }
  }

  lemma MergedRowsAreStorable(rows: seq<Record>, updates: seq<Record>, capacity: nat, storable: Record -> bool)
    requires Valid(rows, capacity, storable) && Valid(updates, MAX_HISTORY_RECORDS, storable)
    ensures Valid(Merged(rows, updates, capacity), capacity, storable)
  {
    UpsertingIsMerging(rows, updates);
    var merged := Merged(rows, updates, capacity);
    forall i | 0 <= i < |merged| ensures storable(merged[i]) {
      MergeKeepsOthers(rows, updates, capacity, merged[i]);
    }
  }
}
