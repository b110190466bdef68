/** The migration runner, the schema checker, and any number of runners at once. */
module Migrations {
  import opened Types
  import Runs

  datatype Record = Record(version: int, name: string, checksum: string)

  /** A migration file. `writes` is the ledger row its script inserts by itself when it is executed, and
      `marker` the one that the file's text is found to insert. */
  datatype File = File(version: int, name: string, checksum: string, marker: Option<Record>, writes: Option<Record>)

  const LEGACY_MIGRATION_CHECKSUMS: map<int, string> :=
    map[1 := "sha256:51bf0b495c5f3495031352f3a0ef7f07e00b630c97a74d04dd4e7a1a674415e7"]

  /** needsLegacyChecksumUpgrade */
  predicate NeedsUpgrade(record: Record, file: File) {
    && file.marker == Some(record)
    && record.checksum != file.checksum
    && record.version == file.version && record.name == file.name
    && file.version in LEGACY_MIGRATION_CHECKSUMS && file.checksum == LEGACY_MIGRATION_CHECKSUMS[file.version]
  }

  /** validateMigrationRecord */
  predicate Valid(record: Record, file: File) {
    record.name == file.name && (record.checksum == file.checksum || NeedsUpgrade(record, file))
  }

  predicate Recorded(ledger: seq<Record>, version: int) {
    exists i :: 0 <= i < |ledger| && ledger[i].version == version
  }

  /** The primary key of schema_migrations. */
  ghost predicate Keyed(ledger: seq<Record>) {
    forall i, j :: 0 <= i < j < |ledger| ==> ledger[i].version != ledger[j].version
  }

  /** loadMigrationFiles: versions are positive, distinct and ascending. */
  ghost predicate Loaded(files: seq<File>) {
    && files != []
    && (forall i :: 0 <= i < |files| ==> files[i].version >= 1)
    && (forall i, j :: 0 <= i < j < |files| ==> files[i].version < files[j].version)
  }

  /** A script records at most its own version. */
  ghost predicate Modest(files: seq<File>) {
    forall i :: 0 <= i < |files| && files[i].writes.Some? ==> files[i].writes.value.version == files[i].version
  }

  function Find(files: seq<File>, version: int): Option<File> {
    if files == [] then None
    else if files[|files| - 1].version == version then Some(files[|files| - 1])
    else Find(files[..|files| - 1], version)
  }

  lemma {:induction false} FindAt(files: seq<File>, i: nat)
    requires Loaded(files) && i < |files|
    ensures Find(files, files[i].version) == Some(files[i])
  {
    if i < |files| - 1 {
      assert files[..|files| - 1][i] == files[i];
      FindAt(files[..|files| - 1], i);
    }
  }

  lemma {:induction false} FindVersion(files: seq<File>, version: int)
    ensures Find(files, version).Some? ==>
              Find(files, version).value.version == version && Find(files, version).value in files
  {
    if files != [] {
      FindVersion(files[..|files| - 1], version);
    }
  }

  // ---- what an intact ledger is

  predicate Known(files: seq<File>, record: Record) {
    Find(files, record.version).Some? && Valid(record, Find(files, record.version).value)
  }

  ghost predicate AllKnown(files: seq<File>, ledger: seq<Record>) {
    forall i :: 0 <= i < |ledger| ==> Known(files, ledger[i])
  }

  /** What CheckMigrationSchema demands. */
  ghost predicate Matches(files: seq<File>, ledger: seq<Record>) {
    AllKnown(files, ledger) && Keyed(ledger) && forall i :: 0 <= i < |files| ==> Recorded(ledger, files[i].version)
  }

  /** The record is the file's: the same version, name and checksum; or the checksum that the first migration's own
      text once inserted, when the file is the one known by this digest. */
  predicate Records(record: Record, file: File) {
    && record.version == file.version && record.name == file.name
    && (record.checksum == file.checksum
        || (file.marker == Some(record) && file.version == 1
            && file.checksum == "sha256:51bf0b495c5f3495031352f3a0ef7f07e00b630c97a74d04dd4e7a1a674415e7"))
  }

  lemma KnownIsRecorded(files: seq<File>, record: Record)
    requires Loaded(files)
    ensures Known(files, record) <==> exists i :: 0 <= i < |files| && Records(record, files[i])
  {
    FindVersion(files, record.version);
    if i :| 0 <= i < |files| && Records(record, files[i]) {
      FindAt(files, i);
    }
  }

  /** A ledger matches the files exactly when every record is the record of one of them, every file has a record,
      and no version is recorded twice. */
  lemma MatchesIff(files: seq<File>, ledger: seq<Record>)
    requires Loaded(files)
    ensures Matches(files, ledger) <==>
              && (forall i :: 0 <= i < |ledger| ==> exists j :: 0 <= j < |files| && Records(ledger[i], files[j]))
              && (forall j :: 0 <= j < |files| ==>
                    exists i :: 0 <= i < |ledger| && ledger[i].version == files[j].version)
              && (forall i, j :: 0 <= i < j < |ledger| ==> ledger[i].version != ledger[j].version)
  {
    forall i | 0 <= i < |ledger|
      ensures Known(files, ledger[i]) <==> exists j :: 0 <= j < |files| && Records(ledger[i], files[j])
    {
      KnownIsRecorded(files, ledger[i]);
    }
    if Matches(files, ledger) {
      forall j | 0 <= j < |files| ensures exists i :: 0 <= i < |ledger| && ledger[i].version == files[j].version {
        assert Recorded(ledger, files[j].version);
      }
    }
  }

  method CheckMigrationSchema(files: seq<File>, records: seq<Record>) returns (ok: bool)
    requires Loaded(files)
    ensures ok <==> Matches(files, records)
  {
    var known := KnownFiles(files);
    var seen: set<int> := {};
    for i := 0 to |records|
      invariant AllKnown(files, records[..i]) && Keyed(records[..i])
      invariant forall v :: v in seen <==> Recorded(records[..i], v)
    {
      var record := records[i];
      assert records[..i + 1][i] == record && records[..i + 1] == records[..i] + [record];
      RecordedSnoc(records[..i], record);
      if record.version !in known || !Valid(record, known[record.version]) {
        assert !Known(files, records[i]);
        return false;
      }
      if record.version in seen {
        var j :| 0 <= j < |records[..i]| && records[..i][j].version == record.version;
        assert records[j].version == records[i].version;
        return false;
      }
      KeyedSnoc(records[..i], record);
      seen := seen + {record.version};
    }
    assert records[..|records|] == records;
    for i := 0 to |files|
      invariant forall j :: 0 <= j < i ==> Recorded(records, files[j].version)
    {
      if files[i].version !in seen {
        return false;
      }
    }
    ok := true;
  }

  method KnownFiles(files: seq<File>) returns (known: map<int, File>)
    requires Loaded(files)
    ensures forall v :: v in known <==> Find(files, v).Some?
    ensures forall v :: v in known ==> known[v] == Find(files, v).value
  {
    known := map[];
    for i := 0 to |files|
      invariant forall v :: v in known <==> Find(files[..i], v).Some?
      invariant forall v :: v in known ==> known[v] == Find(files[..i], v).value
    {
      assert files[..i + 1][..i] == files[..i];
      known := known[files[i].version := files[i]];
    }
    assert files[..|files|] == files;
  }

  lemma RecordedSnoc(ledger: seq<Record>, record: Record)
    ensures forall v :: Recorded(ledger + [record], v) <==> Recorded(ledger, v) || v == record.version
  {
    var all := ledger + [record];
    forall v ensures Recorded(all, v) <==> Recorded(ledger, v) || v == record.version {
      if Recorded(ledger, v) {
        var i :| 0 <= i < |ledger| && ledger[i].version == v;
        assert all[i].version == v;
      }
      assert all[|ledger|] == record;
    }
  }

  lemma KeyedSnoc(ledger: seq<Record>, record: Record)
    requires Keyed(ledger) && !Recorded(ledger, record.version)
    ensures Keyed(ledger + [record])
  {
  }

  // ---- one migration, in one transaction under the advisory lock

  function Upgraded(files: seq<File>, record: Record): Record
    requires Find(files, record.version).Some?
  {
    var file := Find(files, record.version).value;
    if NeedsUpgrade(record, file) then record.(checksum := file.checksum) else record
  }

  ghost function UpgradedAll(files: seq<File>, ledger: seq<Record>): (r: seq<Record>)
    requires AllKnown(files, ledger)
    ensures |r| == |ledger| && forall i :: 0 <= i < |r| ==> r[i] == Upgraded(files, ledger[i])
  {
    seq(|ledger|, i requires 0 <= i < |ledger| => Upgraded(files, ledger[i]))
  }

  /** The ledger row that an executed migration ends up with. */
  function OwnRecord(file: File): Record {
    match file.writes
    case None => Record(file.version, file.name, file.checksum)
    case Some(record) => if NeedsUpgrade(record, file) then record.(checksum := file.checksum) else record
  }

  datatype Effect = Effect(ledger: seq<Record>, executed: bool)

  /** applyMigration when no statement fails; None when it returns an error. */
  ghost function Applied(files: seq<File>, ledger: seq<Record>, file: File): Option<Effect> {
    if !AllKnown(files, ledger) then None
    else if Recorded(ledger, file.version) then Some(Effect(UpgradedAll(files, ledger), false))
    else if file.writes.Some? && !Valid(file.writes.value, file) then None
    else Some(Effect(UpgradedAll(files, ledger) + [OwnRecord(file)], true))
  }

  class MigrationDatabase {
    var ledger: seq<Record>
    var executed: seq<int>   // every script that was executed and committed

    constructor ()
      ensures ledger == [] && executed == []
    {
      ledger, executed := [], [];
    }

    method UpdateMigrationChecksum(version: int, checksum: string)
      modifies this`ledger
      ensures |ledger| == |old(ledger)|
      ensures forall i :: 0 <= i < |ledger| ==>
                ledger[i] == if old(ledger)[i].version == version then old(ledger)[i].(checksum := checksum)
                    else old(ledger)[i]
    {
      ledger := seq(|ledger|, i requires 0 <= i < |ledger| reads this =>
        if ledger[i].version == version then ledger[i].(checksum := checksum) else ledger[i]);
    }

    /** The first loop: every applied record must be known and valid; legacy checksums are upgraded. */
    method ValidateApplied(files: seq<File>, known: map<int, File>) returns (ok: bool)
      requires Keyed(ledger)
      requires forall v :: v in known <==> Find(files, v).Some?
      requires forall v :: v in known ==> known[v] == Find(files, v).value
      modifies this`ledger
      ensures ok <==> AllKnown(files, old(ledger))
      ensures ok ==> ledger == UpgradedAll(files, old(ledger))
    {
      var applied := ledger;
      for i := 0 to |applied|
        invariant |ledger| == |applied|
        invariant forall j :: 0 <= j < i ==> Known(files, applied[j]) && ledger[j] == Upgraded(files, applied[j])
        invariant forall j :: i <= j < |applied| ==> ledger[j] == applied[j]
      {
        var record := applied[i];
        if record.version !in known || !Valid(record, known[record.version]) {
          assert !Known(files, applied[i]);
          return false;
        }
        if NeedsUpgrade(record, known[record.version]) {
          UpdateMigrationChecksum(record.version, known[record.version].checksum);
        }
      }
      ok := true;
      assert ledger == UpgradedAll(files, applied);
    }

    /** The part after the script has run: find its record, or insert it. */
    method RecordExecuted(file: File) returns (ok: bool)
      requires Keyed(ledger) && !Recorded(ledger, file.version)
      requires file.writes.Some? ==> file.writes.value.version == file.version
      modifies this`ledger
      ensures ok <==> (file.writes.Some? ==> Valid(file.writes.value, file))
      ensures ok ==> ledger == old(ledger) + [OwnRecord(file)]
    {
      if file.writes.None? {
        ledger := ledger + [Record(file.version, file.name, file.checksum)];
        return true;
      }
      var before := ledger;
      ledger := ledger + [file.writes.value];
      var record := ledger[|ledger| - 1];
      if !Valid(record, file) {
        return false;
      }
      if NeedsUpgrade(record, file) {
        UpdateMigrationChecksum(file.version, file.checksum);
        assert forall i :: 0 <= i < |before| ==> ledger[i] == before[i];
      }
      assert ledger == before + [OwnRecord(file)];
      ok := true;
    }

    method ApplyMigration(files: seq<File>, file: File, known: map<int, File>) returns (ok: bool, fault: bool)
      requires Keyed(ledger) && Modest([file])
      requires forall v :: v in known <==> Find(files, v).Some?
      requires forall v :: v in known ==> known[v] == Find(files, v).value
      modifies this
      ensures !ok ==> ledger == old(ledger) && executed == old(executed)
      ensures ok ==> Applied(files, old(ledger), file).Some?
      ensures ok ==> ledger == Applied(files, old(ledger), file).value.ledger && Keyed(ledger)
      ensures ok ==> executed == if Applied(files, old(ledger), file).value.executed then old(executed) + [file.version]
              else old(executed)
      ensures !ok ==> fault || Applied(files, old(ledger), file).None?
      ensures ok ==> !fault
    {
      var saved := ledger;
      fault := *;
      if fault {
        return false, true;
      }
      var valid := ValidateApplied(files, known);
      if !valid {
        ledger := saved;
        return false, false;
      }
      UpgradeKeepsVersions(files, saved);
      if Recorded(saved, file.version) {
        return true, false;
      }
      assert [file][0] == file;
      var recorded := RecordExecuted(file);
      if !recorded {
        ledger := saved;
        return false, false;
      }
      KeyedSnoc(UpgradedAll(files, saved), OwnRecord(file));
      executed := executed + [file.version];
      ok := true;
    }

    /** Run: the files in ascending order, each in a transaction of its own. */
    method Run(files: seq<File>) returns (ok: bool, fault: bool)
      requires Loaded(files) && Modest(files) && Keyed(ledger)
      modifies this
      ensures Keyed(ledger)
      ensures ok ==> Matches(files, ledger)
      ensures old(executed) <= executed
      ensures Matches(files, old(ledger)) ==> executed == old(executed) && (ok || fault)
    {
      ghost var before := ledger;
      var known := KnownFiles(files);
      fault := false;
      for i := 0 to |files|
        invariant Keyed(ledger) && !fault
        invariant forall j :: 0 <= j < i ==> Recorded(ledger, files[j].version)
        invariant i > 0 ==> AllKnown(files, ledger)
        invariant old(executed) <= executed
        invariant Matches(files, before) ==> Matches(files, ledger) && executed == old(executed)
      {
        ghost var was := ledger;
        assert Modest([files[i]]);
        ok, fault := ApplyMigration(files, files[i], known);
        if !ok {
          if Matches(files, before) {
            assert Recorded(was, files[i].version);
          }
          return;
        }
        AppliedKeepsKnown(files, was, i);
      }
      ok := true;
    }
  }

  lemma UpgradeKeepsVersions(files: seq<File>, ledger: seq<Record>)
    requires AllKnown(files, ledger) && Keyed(ledger)
    ensures Keyed(UpgradedAll(files, ledger))
    ensures forall v :: Recorded(UpgradedAll(files, ledger), v) <==> Recorded(ledger, v)
  {
    var r := UpgradedAll(files, ledger);
    assert forall i :: 0 <= i < |r| ==> r[i].version == ledger[i].version;
    forall v ensures Recorded(r, v) <==> Recorded(ledger, v) {
      if Recorded(ledger, v) {
        var i :| 0 <= i < |ledger| && ledger[i].version == v;
        assert r[i].version == v;
      }
      if Recorded(r, v) {
        var i :| 0 <= i < |r| && r[i].version == v;
        assert ledger[i].version == v;
      }
    }
  }

  lemma UpgradeKeepsKnown(files: seq<File>, ledger: seq<Record>)
    requires AllKnown(files, ledger)
    ensures AllKnown(files, UpgradedAll(files, ledger))
  {
    var r := UpgradedAll(files, ledger);
    forall i | 0 <= i < |r| ensures Known(files, r[i]) {
      assert Known(files, ledger[i]) && r[i] == Upgraded(files, ledger[i]);
    }
  }

  /** What a successful applyMigration leaves behind: only known, valid records, the file's among them. */
  lemma AppliedKeepsKnown(files: seq<File>, ledger: seq<Record>, i: nat)
    requires Loaded(files) && Modest(files) && i < |files| && Keyed(ledger)
    requires Applied(files, ledger, files[i]).Some?
    ensures var after := Applied(files, ledger, files[i]).value.ledger;
            && AllKnown(files, after) && Keyed(after)
            && (forall v :: Recorded(after, v) <==> Recorded(ledger, v) || v == files[i].version)
            && (Applied(files, ledger, files[i]).value.executed <==> !Recorded(ledger, files[i].version))
  {
    UpgradeKeepsVersions(files, ledger);
    UpgradeKeepsKnown(files, ledger);
    FindAt(files, i);
    if !Recorded(ledger, files[i].version) {
      var own := OwnRecord(files[i]);
      assert own.version == files[i].version;
      RecordedSnoc(UpgradedAll(files, ledger), own);
      KeyedSnoc(UpgradedAll(files, ledger), own);
    }
  }

  /** The checksum of a record is the file's own. */
  ghost predicate UpToDate(files: seq<File>, ledger: seq<Record>) {
    forall i :: 0 <= i < |ledger| ==>
      exists j :: 0 <= j < |files| && ledger[i] == Record(files[j].version, files[j].name, files[j].checksum)
  }

  lemma UpgradedIs(files: seq<File>, record: Record)
    requires Loaded(files) && Known(files, record)
    ensures exists j :: 0 <= j < |files|
                        && Upgraded(files, record) == Record(files[j].version, files[j].name, files[j].checksum)
  {
    KnownIsRecorded(files, record);
    var j :| 0 <= j < |files| && Records(record, files[j]);
    FindAt(files, j);
    assert Upgraded(files, record) == Record(files[j].version, files[j].name, files[j].checksum);
  }

  /** One migration succeeds exactly when every record belongs to a file, and the record that the script writes by
      itself, if it has to run, is the file's. It runs exactly when its version is not recorded; and afterwards its
      version is recorded, and every record carries the checksum of its file. */
  lemma AppliedIff(files: seq<File>, ledger: seq<Record>, n: nat)
    requires Loaded(files) && Modest(files) && n < |files|
    ensures var file, r := files[n], Applied(files, ledger, files[n]);
            var recorded := exists i :: 0 <= i < |ledger| && ledger[i].version == file.version;
            && (r.Some? <==>
                  && (forall i :: 0 <= i < |ledger| ==> exists j :: 0 <= j < |files| && Records(ledger[i], files[j]))
                  && (recorded || file.writes.None? || Records(file.writes.value, file)))
            && (r.Some? ==>
                  && r.value.executed == !recorded && UpToDate(files, r.value.ledger)
                  && |r.value.ledger| == |ledger| + (if recorded then 0 else 1)
                  && (forall i :: 0 <= i < |ledger| ==> r.value.ledger[i].version == ledger[i].version)
                  && (!recorded ==> r.value.ledger[|ledger|] == Record(file.version, file.name, file.checksum)))
  {
    forall i | 0 <= i < |ledger|
      ensures Known(files, ledger[i]) <==> exists j :: 0 <= j < |files| && Records(ledger[i], files[j])
    {
      KnownIsRecorded(files, ledger[i]);
    }
    var r := Applied(files, ledger, files[n]);
    if r.Some? {
      AppliedIsUpToDate(files, ledger, n);
    }
  }

  lemma AppliedIsUpToDate(files: seq<File>, ledger: seq<Record>, n: nat)
    requires Loaded(files) && Modest(files) && n < |files| && Applied(files, ledger, files[n]).Some?
    ensures UpToDate(files, Applied(files, ledger, files[n]).value.ledger)
    ensures !Recorded(ledger, files[n].version) ==>
              OwnRecord(files[n]) == Record(files[n].version, files[n].name, files[n].checksum)
  {
    var file, after := files[n], Applied(files, ledger, files[n]).value.ledger;
    forall i | 0 <= i < |after|
      ensures exists j :: 0 <= j < |files| && after[i] == Record(files[j].version, files[j].name, files[j].checksum)
    {
      if i < |ledger| {
        assert Known(files, ledger[i]) && after[i] == Upgraded(files, ledger[i]);
        UpgradedIs(files, ledger[i]);
      } else {
        assert after[i] == OwnRecord(file) == Record(file.version, file.name, file.checksum);
      }
    }
  }

  // ---- any number of runners

  /** Each runner stands before its next file; None when it has ended with an error. */
  datatype World = World(ledger: seq<Record>, executed: seq<int>, runners: map<nat, Option<nat>>)

  datatype Move = Start(id: nat) | Next(id: nat, fault: bool) | Die(id: nat)

  ghost function Exec(files: seq<File>, w: World, m: Move): World {
    match m
    case Start(id) => if id in w.runners then w else w.(runners := w.runners[id := Some(0)])
    case Die(id) => if id in w.runners then w.(runners := w.runners[id := None]) else w
    case Next(id, fault) =>
      if id !in w.runners || w.runners[id].None? || w.runners[id].value >= |files| then w
      else
        var n := w.runners[id].value;
        match (if fault then None else Applied(files, w.ledger, files[n]))
        case None => w.(runners := w.runners[id := None])
        case Some(e) => World(e.ledger, if e.executed then w.executed + [files[n].version]
            else w.executed, w.runners[id := Some(n + 1)])
  }

  function VersionsOf(files: seq<File>): seq<int> {
    seq(|files|, i requires 0 <= i < |files| => files[i].version)
  }

  /** The ledger records exactly the first n files, which were executed once each, in order. */
  ghost predicate Prefix(files: seq<File>, w: World, n: nat) {
    && n <= |files|
    && w.executed == VersionsOf(files[..n])
    && AllKnown(files, w.ledger) && Keyed(w.ledger)
    && (forall v :: Recorded(w.ledger, v) <==> v in w.executed)
    && (forall id :: id in w.runners && w.runners[id].Some? ==> w.runners[id].value <= n)
  }

  lemma VersionsHere(files: seq<File>, n: nat, i: nat)
    requires Loaded(files) && n <= |files| && i < |files|
    ensures files[i].version in VersionsOf(files[..n]) <==> i < n
  {
    var versions := VersionsOf(files[..n]);
    if i < n {
      assert versions[i] == files[i].version;
    }
    if files[i].version in versions {
      var j :| 0 <= j < |versions| && versions[j] == files[i].version;
      assert files[j].version == files[i].version;
    }
  }

  lemma StepKeeps(files: seq<File>, w: World, m: Move, n: nat)
    requires Loaded(files) && Modest(files) && Prefix(files, w, n)
    ensures Prefix(files, Exec(files, w, m), n) || Prefix(files, Exec(files, w, m), n + 1)
  {
    if m.Next? && m.id in w.runners && w.runners[m.id].Some? && w.runners[m.id].value < |files| && !m.fault {
      var i := w.runners[m.id].value;
      if Applied(files, w.ledger, files[i]).Some? {
        AppliedKeepsKnown(files, w.ledger, i);
        VersionsHere(files, n, i);
        if i == n {
          assert files[..n + 1] == files[..n] + [files[n]];
          assert VersionsOf(files[..n + 1]) == VersionsOf(files[..n]) + [files[n].version];
          assert Prefix(files, Exec(files, w, m), n + 1);
        } else {
          assert Prefix(files, Exec(files, w, m), n);
        }
      }
    }
  }

  const FOUNDED := World([], [], map[])

  ghost function Run(files: seq<File>, moves: seq<Move>): World {
    Runs.Run((w: World, m: Move) => Exec(files, w, m), FOUNDED, moves)
  }

  ghost predicate InOrder(files: seq<File>, w: World) {
    Prefix(files, w, |w.executed|)
  }

  /** From an empty ledger, whatever runners start, fail or die: the executed scripts are the first few
      files, each executed once and in ascending order; and a runner that has reached the end leaves a
      ledger that the schema checker accepts. */
  lemma RunnersExecuteInOrder(files: seq<File>, moves: seq<Move>)
    requires Loaded(files) && Modest(files)
    ensures Prefix(files, Run(files, moves), |Run(files, moves).executed|)
    ensures forall id :: id in Run(files, moves).runners && Run(files, moves).runners[id] == Some(|files|) ==>
              Matches(files, Run(files, moves).ledger)
  {
    var exec := (w: World, m: Move) => Exec(files, w, m);
    var safe := (w: World) => InOrder(files, w);
    var keeps := (a: World, b: World) => true;
    forall w, m | safe(w) ensures safe(exec(w, m)) {
      StepKeeps(files, w, m, |w.executed|);
    }
    Runs.RunKeeps(exec, safe, keeps, FOUNDED, moves);
    var w := Run(files, moves);
    assert InOrder(files, w);
    if |w.executed| == |files| {
      forall i | 0 <= i < |files| ensures Recorded(w.ledger, files[i].version) {
        VersionsHere(files, |files|, i);
      }
    }
  }

  /** Scripts whose own record, if they write one, is the file's. */
  ghost predicate Honest(files: seq<File>) {
    forall i :: 0 <= i < |files| && files[i].writes.Some? ==> Records(files[i].writes.value, files[i])
  }

  function LoneMoves(n: nat): seq<Move> {
    if n == 0 then [Start(0)] else LoneMoves(n - 1) + [Next(0, false)]
  }

  lemma RunSteps(files: seq<File>, moves: seq<Move>, m: Move)
    ensures Run(files, moves + [m]) == Exec(files, Run(files, moves), m)
    ensures Run(files, [m]) == Exec(files, FOUNDED, m)
  {
    var exec := (w: World, m: Move) => Exec(files, w, m);
    Runs.RunMore(exec, FOUNDED, moves, m);
    Runs.RunShort(exec, FOUNDED, m, m);
  }

  lemma OneMoreVersion(files: seq<File>, n: nat)
    requires n < |files|
    ensures VersionsOf(files[..n + 1]) == VersionsOf(files[..n]) + [files[n].version]
  {
    assert files[..n + 1] == files[..n] + [files[n]];
  }

  /** A runner that is alone on an empty ledger executes every file, and is at the end. */
  lemma {:induction false} LoneRunnerExecutesAll(files: seq<File>, n: nat)
    requires Loaded(files) && Modest(files) && Honest(files) && n <= |files|
    ensures Run(files, LoneMoves(n)).executed == VersionsOf(files[..n])
    ensures 0 in Run(files, LoneMoves(n)).runners && Run(files, LoneMoves(n)).runners[0] == Some(n)
  {
    if n == 0 {
      RunSteps(files, [], Start(0));
    } else {
      LoneRunnerExecutesAll(files, n - 1);
      RunSteps(files, LoneMoves(n - 1), Next(0, false));
      RunnersExecuteInOrder(files, LoneMoves(n - 1));
      NextExecutes(files, Run(files, LoneMoves(n - 1)), n - 1);
      OneMoreVersion(files, n - 1);
    }
  }

  lemma NextExecutes(files: seq<File>, w: World, n: nat)
    requires Loaded(files) && Modest(files) && Honest(files) && n < |files| && Prefix(files, w, |w.executed|)
    requires w.executed == VersionsOf(files[..n]) && 0 in w.runners && w.runners[0] == Some(n)
    ensures Exec(files, w, Next(0, false)).executed == w.executed + [files[n].version]
    ensures 0 in Exec(files, w, Next(0, false)).runners && Exec(files, w, Next(0, false)).runners[0] == Some(n + 1)
  {
    VersionsHere(files, n, n);
    assert !Recorded(w.ledger, files[n].version);
    forall i | 0 <= i < |w.ledger| ensures exists j :: 0 <= j < |files| && Records(w.ledger[i], files[j]) {
      KnownIsRecorded(files, w.ledger[i]);
    }
    AppliedIff(files, w.ledger, n);
  }
}
