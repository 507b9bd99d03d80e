/** The package store (database/src/lib.rs): the `package_metadata` table of
    last-known upstream state and the append-only `build_results` table.
    The tables are the fields of class `Store`; every operation on them is
    specified by a pure function on a `StoreState` value, so that the
    server's and the reporter's loops can be specified by folds of those
    functions. */
module Database {
  import opened Types
  import Common

  /** A `package_metadata` row. */
  datatype PackageRow = PackageRow(
    id: int,
    name: string,
    version: string,
    maintainer: string,
    lastModified: int,
    source: Option<string>,
    subfolder: Option<string>)

  /** A `build_results` row. */
  datatype BuildRecord = BuildRecord(
    id: int,
    packageId: int,
    exitCode: int,
    buildLog: string,
    success: bool,
    startedAt: Instant,
    finishedAt: Instant,
    version: string)

  /** Both tables, with the next ids the database will assign (auto-increment). */
  datatype StoreState = StoreState(
    packages: seq<PackageRow>,
    records: seq<BuildRecord>,
    nextPackageId: int,
    nextRecordId: int)

  /** The process exit code when the database stays unreachable. */
  const DatabaseExitCode: int := 4

  // ---------------------------------------------------------------------
  // Lookups

  /** The position of the first row with this name (`get_package_by_name`). */
  function IndexOfName(rows: seq<PackageRow>, name: string): (r: Option<nat>)
    ensures r.Some? ==> r.value < |rows| && rows[r.value].name == name
    ensures r.Some? ==> forall k :: 0 <= k < r.value ==> rows[k].name != name
    ensures r.None? <==> forall k :: 0 <= k < |rows| ==> rows[k].name != name
  {
    if |rows| == 0 then None
    else if rows[0].name == name then Some(0)
    else
      match IndexOfName(rows[1..], name)
      case None => None
      case Some(i) => Some(i + 1)
  }

  /** The position of the row with this id (`find_by_id` / filter on `Id`). */
  function IndexOfId(rows: seq<PackageRow>, id: int): (r: Option<nat>)
    ensures r.Some? ==> r.value < |rows| && rows[r.value].id == id
    ensures r.None? <==> forall k :: 0 <= k < |rows| ==> rows[k].id != id
  {
    if |rows| == 0 then None
    else if rows[0].id == id then Some(0)
    else
      match IndexOfId(rows[1..], id)
      case None => None
      case Some(i) => Some(i + 1)
  }

  /** `get_package_by_name`: the stored row with this name, if any. */
  function PackageByName(rows: seq<PackageRow>, name: string): (r: Option<PackageRow>)
    ensures r.Some? ==> r.value in rows && r.value.name == name
    ensures r.None? <==> forall k :: 0 <= k < |rows| ==> rows[k].name != name
  {
    match IndexOfName(rows, name)
    case None => None
    case Some(i) => Some(rows[i])
  }

  /** Ids strictly increase along the table, names are unique, and every id
      was assigned before `nextPackageId`; every build record belongs to a
      stored package (the foreign key) and record ids increase likewise. */
  ghost predicate WellFormed(s: StoreState) {
    && s.nextPackageId >= 1 && s.nextRecordId >= 1
    && (forall i, j :: 0 <= i < j < |s.packages| ==>
          s.packages[i].id < s.packages[j].id && s.packages[i].name != s.packages[j].name)
    && (forall i :: 0 <= i < |s.packages| ==> 1 <= s.packages[i].id < s.nextPackageId)
    && (forall i, j :: 0 <= i < j < |s.records| ==> s.records[i].id < s.records[j].id)
    && (forall i :: 0 <= i < |s.records| ==> 1 <= s.records[i].id < s.nextRecordId)
    && (forall i :: 0 <= i < |s.records| ==> IndexOfId(s.packages, s.records[i].packageId).Some?)
  }

  /** With unique names, the row found by name is the only row with that name. */
  lemma NameIndexUnique(s: StoreState, k: nat)
    requires WellFormed(s)
    requires k < |s.packages|
    ensures IndexOfName(s.packages, s.packages[k].name) == Some(k)
  {
  }

  /** A table whose first rows keep their ids still holds every id it held. */
  lemma IdsKept(rows: seq<PackageRow>, rows': seq<PackageRow>, id: int)
    requires |rows| <= |rows'|
    requires forall k :: 0 <= k < |rows| ==> rows'[k].id == rows[k].id
    requires IndexOfId(rows, id).Some?
    ensures IndexOfId(rows', id).Some?
  {
    var k := IndexOfId(rows, id).value;
    assert rows'[k].id == id;
  }

  // ---------------------------------------------------------------------
  // update_metadata

  /** What `update_metadata` decides for a fetched package. */
  datatype Decision = Insert | Overwrite(index: nat) | Keep

  function Decide(rows: seq<PackageRow>, data: PackageSearchResult): (d: Decision)
    ensures d.Insert? <==> forall k :: 0 <= k < |rows| ==> rows[k].name != data.name
    ensures d.Overwrite? ==>
      && IndexOfName(rows, data.name) == Some(d.index)
      && rows[d.index].lastModified < data.lastModified
    ensures d.Keep? ==>
      && IndexOfName(rows, data.name).Some?
      && data.lastModified <= rows[IndexOfName(rows, data.name).value].lastModified
  {
    match IndexOfName(rows, data.name)
    case None => Insert
    case Some(i) => if rows[i].lastModified < data.lastModified then Overwrite(i) else Keep
  }

  /** The row written from fetched data under the given id. */
  function RowFrom(id: int, data: PackageSearchResult): PackageRow {
    PackageRow(id, data.name, data.version, data.maintainer, data.lastModified, data.source, data.subfolder)
  }

  datatype UpsertOutcome = UpsertOutcome(state: StoreState, changed: bool)

  /** `update_metadata`: the new store and the returned flag. The flag is the
      decision; `writeOk` is whether the database accepted the write, which the
      source discards. */
  function Upsert(s: StoreState, data: PackageSearchResult, writeOk: bool): UpsertOutcome {
    match Decide(s.packages, data)
    case Insert =>
      if writeOk then
        UpsertOutcome(s.(packages := s.packages + [RowFrom(s.nextPackageId, data)],
                         nextPackageId := s.nextPackageId + 1), true)
      else UpsertOutcome(s, true)
    case Overwrite(i) =>
      if writeOk then
        UpsertOutcome(s.(packages := s.packages[i := RowFrom(s.packages[i].id, data)]), true)
      else UpsertOutcome(s, true)
    case Keep => UpsertOutcome(s, false)
  }

  /** Appending a row with a new name under the next id keeps the tables well formed. */
  lemma InsertWellFormed(s: StoreState, data: PackageSearchResult)
    requires WellFormed(s)
    requires forall k :: 0 <= k < |s.packages| ==> s.packages[k].name != data.name
    ensures WellFormed(s.(packages := s.packages + [RowFrom(s.nextPackageId, data)],
                          nextPackageId := s.nextPackageId + 1))
  {
    var s' := s.(packages := s.packages + [RowFrom(s.nextPackageId, data)], nextPackageId := s.nextPackageId + 1);
    forall i | 0 <= i < |s'.records|
      ensures IndexOfId(s'.packages, s'.records[i].packageId).Some?
    {
      IdsKept(s.packages, s'.packages, s.records[i].packageId);
    }
  }

  /** Rewriting a row with data of the same name under its own id keeps the
      tables well formed. */
  lemma OverwriteWellFormed(s: StoreState, data: PackageSearchResult, i: nat)
    requires WellFormed(s)
    requires i < |s.packages| && s.packages[i].name == data.name
    ensures WellFormed(s.(packages := s.packages[i := RowFrom(s.packages[i].id, data)]))
  {
    var s' := s.(packages := s.packages[i := RowFrom(s.packages[i].id, data)]);
    forall k | 0 <= k < |s'.records|
      ensures IndexOfId(s'.packages, s'.records[k].packageId).Some?
    {
      IdsKept(s.packages, s'.packages, s.records[k].packageId);
    }
  }

  lemma UpsertWellFormed(s: StoreState, data: PackageSearchResult, writeOk: bool)
    requires WellFormed(s)
    ensures WellFormed(Upsert(s, data, writeOk).state)
  {
    match Decide(s.packages, data) {
      case Insert =>
        if writeOk {
          InsertWellFormed(s, data);
        }
      case Overwrite(i) =>
        if writeOk {
          OverwriteWellFormed(s, data, i);
        }
      case Keep =>
    }
  }

  /** Upserting never touches the build records. */
  lemma UpsertKeepsRecords(s: StoreState, data: PackageSearchResult, writeOk: bool)
    ensures Upsert(s, data, writeOk).state.records == s.records
    ensures Upsert(s, data, writeOk).state.nextRecordId == s.nextRecordId
  {
  }

  /** A package whose name is not stored is inserted, with the next id and the
      fetched fields, and the call reports a change. */
  lemma UpsertInsertsNew(s: StoreState, data: PackageSearchResult)
    requires forall k :: 0 <= k < |s.packages| ==> s.packages[k].name != data.name
    ensures Upsert(s, data, true).changed
    ensures Upsert(s, data, true).state.packages == s.packages + [RowFrom(s.nextPackageId, data)]
  {
  }

  /** A stored package with an older timestamp is overwritten in place with the
      fetched fields, keeps its id, and the call reports a change. */
  lemma UpsertOverwritesOlder(s: StoreState, data: PackageSearchResult, k: nat)
    requires WellFormed(s)
    requires k < |s.packages| && s.packages[k].name == data.name
    requires s.packages[k].lastModified < data.lastModified
    ensures Upsert(s, data, true).changed
    ensures Upsert(s, data, true).state.packages == s.packages[k := RowFrom(s.packages[k].id, data)]
  {
    NameIndexUnique(s, k);
  }

  /** A stored package whose timestamp is not older is left alone and the call
      reports no change. */
  lemma UpsertKeepsCurrent(s: StoreState, data: PackageSearchResult, k: nat, writeOk: bool)
    requires WellFormed(s)
    requires k < |s.packages| && s.packages[k].name == data.name
    requires data.lastModified <= s.packages[k].lastModified
    ensures !Upsert(s, data, writeOk).changed
    ensures Upsert(s, data, writeOk).state == s
  {
    NameIndexUnique(s, k);
  }

  /** The returned flag is the decision, whatever became of the write. */
  lemma UpsertFlagIgnoresWrite(s: StoreState, data: PackageSearchResult)
    ensures Upsert(s, data, true).changed == Upsert(s, data, false).changed
    ensures Upsert(s, data, false).state == s
  {
  }

  /** Two tables that agree on which of their shared positions carry a name,
      the longer one having no further row with it, find it at the same place. */
  lemma SameNameIndex(rows: seq<PackageRow>, rows': seq<PackageRow>, name: string)
    requires |rows| <= |rows'|
    requires forall k :: 0 <= k < |rows| ==> (rows'[k].name == name <==> rows[k].name == name)
    requires forall k :: |rows| <= k < |rows'| ==> rows'[k].name != name
    ensures IndexOfName(rows', name) == IndexOfName(rows, name)
    decreases |rows|
  {
    if |rows| == 0 {
      assert forall k :: 0 <= k < |rows'| ==> rows'[k].name != name;
    } else if rows[0].name != name {
      assert rows'[0].name != name;
      SameNameIndex(rows[1..], rows'[1..], name);
    }
  }

  /** An upsert leaves what a lookup by any other name finds. */
  lemma UpsertKeepsOtherNames(s: StoreState, data: PackageSearchResult, writeOk: bool, name: string)
    requires name != data.name
    ensures PackageByName(Upsert(s, data, writeOk).state.packages, name) == PackageByName(s.packages, name)
  {
    var rows' := Upsert(s, data, writeOk).state.packages;
    SameNameIndex(s.packages, rows', name);
  }

  /** A successful insert or overwrite is found by name afterwards, holding the
      fetched fields under the new or the kept id. */
  lemma UpsertFindsOwnRow(s: StoreState, data: PackageSearchResult)
    ensures var rows' := Upsert(s, data, true).state.packages;
      Decide(s.packages, data).Insert? ==>
        PackageByName(rows', data.name) == Some(RowFrom(s.nextPackageId, data))
    ensures var rows' := Upsert(s, data, true).state.packages;
      Decide(s.packages, data).Overwrite? ==>
        PackageByName(rows', data.name) == Some(RowFrom(s.packages[Decide(s.packages, data).index].id, data))
  {
    var rows' := Upsert(s, data, true).state.packages;
    match Decide(s.packages, data) {
      case Insert =>
        assert rows'[|s.packages|].name == data.name;
      case Overwrite(i) =>
        SameNameIndex(s.packages, rows', data.name);
      case Keep =>
    }
  }

  // ---------------------------------------------------------------------
  // reset_package_last_modified and save_build_results

  /** What a write keyed by a package id came to: done, no package with that
      id (an `unwrap` on `None` in the source), or the database refused. */
  datatype WriteOutcome = Written | NoSuchPackage | WriteFailed

  datatype StoreUpdate = StoreUpdate(state: StoreState, outcome: WriteOutcome)

  /** `reset_package_last_modified`: only `last_modified` of the row with this id becomes 0. */
  function ResetLastModified(s: StoreState, id: int, writeOk: bool): StoreUpdate {
    match IndexOfId(s.packages, id)
    case None => StoreUpdate(s, NoSuchPackage)
    case Some(i) =>
      if writeOk then
        StoreUpdate(s.(packages := s.packages[i := s.packages[i].(lastModified := 0)]), Written)
      else StoreUpdate(s, WriteFailed)
  }

  /** Rewriting rows' other columns in place, keeping every id and name,
      keeps the store well formed. */
  lemma SameKeysWellFormed(s: StoreState, s': StoreState)
    requires WellFormed(s)
    requires s'.records == s.records
    requires s'.nextPackageId == s.nextPackageId && s'.nextRecordId == s.nextRecordId
    requires |s'.packages| == |s.packages|
    requires forall k :: 0 <= k < |s.packages| ==>
      s'.packages[k].id == s.packages[k].id && s'.packages[k].name == s.packages[k].name
    ensures WellFormed(s')
  {
    forall i | 0 <= i < |s'.records|
      ensures IndexOfId(s'.packages, s'.records[i].packageId).Some?
    {
      IdsKept(s.packages, s'.packages, s.records[i].packageId);
    }
  }

  lemma ResetWellFormed(s: StoreState, id: int, writeOk: bool)
    requires WellFormed(s)
    ensures WellFormed(ResetLastModified(s, id, writeOk).state)
  {
    var s' := ResetLastModified(s, id, writeOk).state;
    if IndexOfId(s.packages, id).Some? && writeOk {
      SameKeysWellFormed(s, s');
    }
  }

  /** After a reset, the next fetch of that package with any positive timestamp
      is seen as a change (a forced rebuild). */
  lemma ResetForcesChange(s: StoreState, id: int, data: PackageSearchResult, writeOk: bool)
    requires WellFormed(s)
    requires ResetLastModified(s, id, true).outcome == Written
    requires data.name == s.packages[IndexOfId(s.packages, id).value].name
    requires data.lastModified > 0
    ensures Upsert(ResetLastModified(s, id, true).state, data, writeOk).changed
  {
    var k := IndexOfId(s.packages, id).value;
    var s' := ResetLastModified(s, id, true).state;
    ResetWellFormed(s, id, true);
    assert s'.packages[k].name == data.name;
    NameIndexUnique(s', k);
  }

  /** A Rust `as i32` cast of an i64: keep the low 32 bits, two's complement. */
  function ToI32(x: int): (r: int)
    ensures -0x8000_0000 <= r < 0x8000_0000
    ensures (x - r) % 0x1_0000_0000 == 0
    ensures -0x8000_0000 <= x < 0x8000_0000 ==> r == x
  {
    var low := x % 0x1_0000_0000;
    if low >= 0x8000_0000 then low - 0x1_0000_0000 else low
  }

  /** `join("")`: the lines concatenated in order. */
  function Join(lines: seq<string>): string
    decreases |lines|
  {
    if lines == [] then "" else Join(lines[..|lines| - 1]) + lines[|lines| - 1]
  }

  lemma {:induction false} JoinAppend(a: seq<string>, b: seq<string>)
    ensures Join(a + b) == Join(a) + Join(b)
    decreases |b|
  {
    if b != [] {
      assert (a + b)[..|a + b| - 1] == a + b[..|b| - 1];
      JoinAppend(a, b[..|b| - 1]);
    } else {
      assert a + b == a;
    }
  }

  /** The record `save_build_results` writes for a result, under the given record id. */
  function RecordFor(recordId: int, data: BuildResult): BuildRecord {
    BuildRecord(recordId, data.task.id, ToI32(data.statusCode), Join(data.logLines),
                data.success, data.timestamps.start, data.timestamps.end, data.task.version)
  }

  /** `save_build_results`: append one record for the package with the task's
      id; no such package or a refused insert writes nothing. */
  function SaveResult(s: StoreState, data: BuildResult, writeOk: bool): StoreUpdate {
    if IndexOfId(s.packages, data.task.id).None? then StoreUpdate(s, NoSuchPackage)
    else if !writeOk then StoreUpdate(s, WriteFailed)
    else
      StoreUpdate(s.(records := s.records + [RecordFor(s.nextRecordId, data)],
                     nextRecordId := s.nextRecordId + 1), Written)
  }

  lemma SaveWellFormed(s: StoreState, data: BuildResult, writeOk: bool)
    requires WellFormed(s)
    ensures WellFormed(SaveResult(s, data, writeOk).state)
  {
    var s' := SaveResult(s, data, writeOk).state;
    if s' != s {
      var rs := s'.records;
      var n := |s.records|;
      assert rs == s.records + [RecordFor(s.nextRecordId, data)];
      assert s'.packages == s.packages && s'.nextRecordId == s.nextRecordId + 1;
      forall i, j | 0 <= i < j < |rs|
        ensures rs[i].id < rs[j].id
      {
        assert rs[i] == s.records[i];
        if j < n {
          assert rs[j] == s.records[j];
        }
      }
      forall i | 0 <= i < |rs|
        ensures 1 <= rs[i].id < s'.nextRecordId
        ensures IndexOfId(s'.packages, rs[i].packageId).Some?
      {
        if i < n {
          assert rs[i] == s.records[i];
        }
      }
    }
  }

  /** Saving never touches the package rows, and it writes a record exactly
      when a package has the task's id and the insert is accepted. */
  lemma SaveOnlyAppends(s: StoreState, data: BuildResult, writeOk: bool)
    ensures SaveResult(s, data, writeOk).state.packages == s.packages
    ensures SaveResult(s, data, writeOk).outcome == Written <==>
      (writeOk && exists k :: 0 <= k < |s.packages| && s.packages[k].id == data.task.id)
    ensures SaveResult(s, data, writeOk).outcome != Written ==> SaveResult(s, data, writeOk).state == s
  {
    if exists k :: 0 <= k < |s.packages| && s.packages[k].id == data.task.id {
      var k :| 0 <= k < |s.packages| && s.packages[k].id == data.task.id;
      assert IndexOfId(s.packages, data.task.id).Some?;
    }
  }

  // ---------------------------------------------------------------------
  // get_build_results

  ghost predicate NewestFirst(rs: seq<BuildRecord>) {
    forall i, j :: 0 <= i < j < |rs| ==> rs[i].startedAt >= rs[j].startedAt
  }

  /** The records of one package, in table order. */
  function RecordsOf(records: seq<BuildRecord>, packageId: int): (r: seq<BuildRecord>)
    ensures forall x :: x in r ==> x.packageId == packageId
    ensures forall x :: multiset(r)[x] == if x.packageId == packageId then multiset(records)[x] else 0
    decreases |records|
  {
    if records == [] then []
    else
      var rest := RecordsOf(records[1..], packageId);
      assert records == [records[0]] + records[1..];
      if records[0].packageId == packageId then [records[0]] + rest else rest
  }

  /** A head at least as new as every element of a newest-first tail keeps
      the order. */
  lemma ConsNewestFirst(h: BuildRecord, t: seq<BuildRecord>)
    requires NewestFirst(t)
    requires forall j :: 0 <= j < |t| ==> h.startedAt >= t[j].startedAt
    ensures NewestFirst([h] + t)
  {
    var r := [h] + t;
    forall i, j | 0 <= i < j < |r|
      ensures r[i].startedAt >= r[j].startedAt
    {
      assert r[j] == t[j - 1];
      if i > 0 {
        assert r[i] == t[i - 1];
      }
    }
  }

  /** The tail of a newest-first list is newest first, and its head is at
      least as new as all of the tail. */
  lemma TailNewestFirst(rs: seq<BuildRecord>)
    requires rs != [] && NewestFirst(rs)
    ensures NewestFirst(rs[1..])
    ensures forall y :: y in rs[1..] ==> rs[0].startedAt >= y.startedAt
  {
    var t := rs[1..];
    forall i, j | 0 <= i < j < |t|
      ensures t[i].startedAt >= t[j].startedAt
    {
      assert t[i] == rs[i + 1] && t[j] == rs[j + 1];
    }
  }

  function InsertNewestFirst(x: BuildRecord, rs: seq<BuildRecord>): (r: seq<BuildRecord>)
    requires NewestFirst(rs)
    ensures NewestFirst(r)
    ensures multiset(r) == multiset(rs) + multiset{x}
    ensures forall y :: y in r ==> y == x || y in rs
    decreases |rs|
  {
    if rs == [] || x.startedAt >= rs[0].startedAt then
      ConsNewestFirst(x, rs);
      [x] + rs
    else
      TailNewestFirst(rs);
      var tail := InsertNewestFirst(x, rs[1..]);
      assert rs == [rs[0]] + rs[1..];
      forall j | 0 <= j < |tail|
        ensures rs[0].startedAt >= tail[j].startedAt
      {
        assert tail[j] in tail;
      }
      ConsNewestFirst(rs[0], tail);
      [rs[0]] + tail
  }

  function SortNewestFirst(rs: seq<BuildRecord>): (r: seq<BuildRecord>)
    ensures NewestFirst(r)
    ensures multiset(r) == multiset(rs)
    decreases |rs|
  {
    if rs == [] then []
    else
      assert rs == [rs[0]] + rs[1..];
      InsertNewestFirst(rs[0], SortNewestFirst(rs[1..]))
  }

  /** `get_build_results`: exactly the records of the package (each as often
      as it is stored), ordered by start time, newest first. */
  function BuildResultsFor(records: seq<BuildRecord>, packageId: int): (r: seq<BuildRecord>)
    ensures NewestFirst(r)
    ensures forall x :: multiset(r)[x] == if x.packageId == packageId then multiset(records)[x] else 0
    ensures forall x :: x in r <==> x in records && x.packageId == packageId
  {
    SortNewestFirst(RecordsOf(records, packageId))
  }

  // ---------------------------------------------------------------------
  // The tables as mutable state

  class Store {
    var packages: seq<PackageRow>
    var records: seq<BuildRecord>
    var nextPackageId: int
    var nextRecordId: int

    function State(): StoreState
      reads this
    {
      StoreState(packages, records, nextPackageId, nextRecordId)
    }

    ghost predicate Valid()
      reads this
    {
      WellFormed(State())
    }

    constructor ()
      ensures Valid()
      ensures packages == [] && records == []
    {
      packages := [];
      records := [];
      nextPackageId := 1;
      nextRecordId := 1;
    }

    /** `update_metadata`: look the name up, then insert, overwrite in place or do nothing. */
    method UpdateMetadata(data: PackageSearchResult, writeOk: bool) returns (changed: bool)
      requires Valid()
      modifies this
      ensures Valid()
      ensures State() == Upsert(old(State()), data, writeOk).state
      ensures changed == Upsert(old(State()), data, writeOk).changed
    {
      UpsertWellFormed(State(), data, writeOk);
      var existing := IndexOfName(packages, data.name);
      changed := false;
      if existing.Some? {
        var i := existing.value;
        if packages[i].lastModified < data.lastModified {
          if writeOk {
            packages := packages[i := RowFrom(packages[i].id, data)];
          }
          changed := true;
        }
      } else {
        if writeOk {
          packages := packages + [RowFrom(nextPackageId, data)];
          nextPackageId := nextPackageId + 1;
        }
        changed := true;
      }
    }

    /** `reset_package_last_modified`. */
    method ResetPackageLastModified(id: int, writeOk: bool) returns (outcome: WriteOutcome)
      requires Valid()
      modifies this
      ensures Valid()
      ensures State() == ResetLastModified(old(State()), id, writeOk).state
      ensures outcome == ResetLastModified(old(State()), id, writeOk).outcome
    {
      ResetWellFormed(State(), id, writeOk);
      var found := IndexOfId(packages, id);
      if found.None? {
        outcome := NoSuchPackage;
      } else if !writeOk {
        outcome := WriteFailed;
      } else {
        var i := found.value;
        packages := packages[i := packages[i].(lastModified := 0)];
        outcome := Written;
      }
    }

    /** `save_build_results`. */
    method SaveBuildResults(data: BuildResult, writeOk: bool) returns (outcome: WriteOutcome)
      requires Valid()
      modifies this
      ensures Valid()
      ensures State() == SaveResult(old(State()), data, writeOk).state
      ensures outcome == SaveResult(old(State()), data, writeOk).outcome
    {
      SaveWellFormed(State(), data, writeOk);
      var package := IndexOfId(packages, data.task.id);
      if package.None? {
        outcome := NoSuchPackage;
      } else if !writeOk {
        outcome := WriteFailed;
      } else {
        records := records + [RecordFor(nextRecordId, data)];
        nextRecordId := nextRecordId + 1;
        outcome := Written;
      }
    }
  }

  /** `connect_to_db`: the shared retry loop with the database's exit code. */
  method ConnectToDb<C>(connect: nat -> Option<C>) returns (outcome: Common.RetryOutcome<C>)
    ensures outcome.Exited? <==> forall k :: 0 <= k <= Common.ConnectionRetryNumber ==> connect(k).None?
    ensures outcome.Exited? ==> outcome.code == DatabaseExitCode
    ensures outcome.Connected? ==>
      && outcome.failures <= Common.ConnectionRetryNumber
      && connect(outcome.failures) == Some(outcome.conn)
      && forall k :: 0 <= k < outcome.failures ==> connect(k).None?
  {
    var sleeps;
    outcome, sleeps := Common.ConnectWithRetry(connect, DatabaseExitCode);
  }
}
