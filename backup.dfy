/** The manual backup script backup.py: take a snapshot of the live
    database, prune the snapshot folder, restore the database from a
    snapshot, and list the snapshots. */
module Backup {
  import opened Common
  import opened Files
  import opened Naming
  import opened Retention

  const DB_FILE: Path := Path("instance", "bibliotech.db")
  const BACKUP_FOLDER: string := "backups"
  const BACKUP_PREFIX: string := "bibliotech_backup_"
  const RESTORE_PREFIX: string := "bibliotech_before_restore_"
  const DEFAULT_KEEP: nat := 10

  function SnapshotPath(now: DateTime): (p: Path)
    requires now.Valid()
    ensures p.dir == BACKUP_FOLDER && IsBackupName(p.name, BACKUP_PREFIX)
  {
    Path(BACKUP_FOLDER, BackupName(BACKUP_PREFIX, now))
  }

  /** The safety copy `restore_database` writes next to the live database. */
  function SafetyPath(now: DateTime): (p: Path)
    requires now.Valid()
    ensures p.dir == DB_FILE.dir && p != DB_FILE
    ensures StartsWith(p.name, RESTORE_PREFIX)
  {
    var p := Path(DB_FILE.dir, BackupName(RESTORE_PREFIX, now));
    assert p.name[10] == RESTORE_PREFIX[10] != DB_FILE.name[10];
    p
  }

  /** `cleanup_old_backups(backup_folder, keep=10)`; a missing folder makes
      `os.listdir` raise, which the function catches. */
  method CleanupOldBackups(fs: FileSystem, backup_folder: string, keep: nat := DEFAULT_KEEP)
    requires fs.Valid()
    modifies fs`files
    ensures fs.Valid()
    ensures backup_folder !in fs.dirs ==> fs.files == old(fs.files)
    ensures backup_folder in fs.dirs ==> PrunedFrom(old(fs.files), fs.files, backup_folder, BACKUP_PREFIX, keep)
  {
    if backup_folder in fs.dirs {
      var _ := PruneBackups(fs, backup_folder, BACKUP_PREFIX, keep);
    }
  }

  /** `backup_database()` at the instant `now`: without a live database it
      returns False and touches nothing; otherwise it creates the folder,
      copies the database to the snapshot and keeps the ten newest
      snapshots. */
  method BackupDatabase(fs: FileSystem, now: DateTime) returns (ok: bool)
    requires fs.Valid() && now.Valid()
    modifies fs
    ensures fs.Valid()
    ensures ok <==> DB_FILE in old(fs.files)
    ensures !ok ==> fs.files == old(fs.files) && fs.dirs == old(fs.dirs)
    ensures ok ==> && fs.dirs == old(fs.dirs) + {BACKUP_FOLDER}
                   && PrunedFrom(old(fs.files)[SnapshotPath(now) := old(fs.files)[DB_FILE]], fs.files,
                                 BACKUP_FOLDER, BACKUP_PREFIX, DEFAULT_KEEP)
  {
    if DB_FILE !in fs.files {
      return false;
    }
    fs.MakeDirs(BACKUP_FOLDER);
    var copied := fs.Copy2(DB_FILE, SnapshotPath(now));
    if !copied {
      assert false;
      return false;
    }
    CleanupOldBackups(fs, BACKUP_FOLDER);
    return true;
  }

  /** The file table `restore_database(backup_file)` leaves when the backup
      file exists: the safety copy of a live database first, then the copy
      of the backup over the live database, which `shutil.copy2` refuses
      with `SameFileError` when the backup file is the live database, and
      cannot make when the database's directory is missing. */
  ghost function Restored(before: map<Path, FileData>, dirs: set<string>, backup_file: Path, now: DateTime): map<Path, FileData>
    requires now.Valid() && backup_file in before
  {
    var staged := if DB_FILE in before then before[SafetyPath(now) := before[DB_FILE]] else before;
    if backup_file == DB_FILE || DB_FILE.dir !in dirs then staged else staged[DB_FILE := staged[backup_file]]
  }

  method RestoreDatabase(fs: FileSystem, backup_file: Path, now: DateTime) returns (ok: bool)
    requires fs.Valid() && now.Valid()
    modifies fs`files
    ensures fs.Valid()
    ensures ok <==> backup_file in old(fs.files) && backup_file != DB_FILE && DB_FILE.dir in fs.dirs
    ensures backup_file !in old(fs.files) ==> fs.files == old(fs.files)
    ensures backup_file in old(fs.files) ==> fs.files == Restored(old(fs.files), fs.dirs, backup_file, now)
  {
    if backup_file !in fs.files {
      return false;
    }
    if DB_FILE in fs.files {
      var saved := fs.Copy2(DB_FILE, SafetyPath(now));
    }
    ok := fs.Copy2(backup_file, DB_FILE);
  }

  /** After a successful restore the live database holds the backup's
      bytes, provided the backup is not the safety copy just written. */
  lemma RestoreInstallsBackup(before: map<Path, FileData>, dirs: set<string>, backup_file: Path, now: DateTime)
    requires now.Valid() && backup_file in before && backup_file != DB_FILE && DB_FILE.dir in dirs
    requires backup_file != SafetyPath(now)
    ensures DB_FILE in Restored(before, dirs, backup_file, now)
    ensures Restored(before, dirs, backup_file, now)[DB_FILE] == before[backup_file]
  {
  }

  /** The live database's prior contents survive a restore in the safety
      copy, whatever the backup file was. */
  lemma RestoreKeepsPrior(before: map<Path, FileData>, dirs: set<string>, backup_file: Path, now: DateTime)
    requires now.Valid() && backup_file in before && DB_FILE in before
    ensures SafetyPath(now) in Restored(before, dirs, backup_file, now)
    ensures Restored(before, dirs, backup_file, now)[SafetyPath(now)] == before[DB_FILE]
  {
  }

  /** Besides the live database and the safety copy, a restore changes no file. */
  lemma RestoreTouchesTwoFiles(before: map<Path, FileData>, dirs: set<string>, backup_file: Path, now: DateTime, p: Path)
    requires now.Valid() && backup_file in before
    requires p in before && p != DB_FILE && p != SafetyPath(now)
    ensures p in Restored(before, dirs, backup_file, now) && Restored(before, dirs, backup_file, now)[p] == before[p]
  {
  }

  /** `sorted(backups, reverse=True)` as `list_backups()` prints it; empty
      when the folder does not exist. */
  method ListBackups(fs: FileSystem) returns (listed: seq<string>)
    ensures BACKUP_FOLDER !in fs.dirs ==> listed == []
    ensures BACKUP_FOLDER in fs.dirs ==>
              forall n :: n in listed <==> Path(BACKUP_FOLDER, n) in Matching(fs.files, BACKUP_FOLDER, BACKUP_PREFIX)
    ensures Distinct(listed)
    ensures forall i, j :: 0 <= i < j < |listed| ==> LexLess(listed[j], listed[i])
  {
    if BACKUP_FOLDER !in fs.dirs {
      return [];
    }
    var names := ListBackupNames(fs, BACKUP_FOLDER, BACKUP_PREFIX);
    listed := SortDescending(names);
    DistinctPermutation(names, listed);
    forall n ensures n in listed <==> n in names {
      assert n in listed <==> n in multiset(listed);
    }
    forall i, j | 0 <= i < j < |listed| ensures LexLess(listed[j], listed[i]) {
      LexTotal(listed[i], listed[j]);
    }
  }

  /** Snapshots named by `BackupName` are listed latest first. */
  lemma ListedLatestFirst(listed: seq<string>, times: seq<DateTime>)
    requires |listed| == |times|
    requires forall i :: 0 <= i < |times| ==> times[i].Valid() && listed[i] == BackupName(BACKUP_PREFIX, times[i])
    requires forall i, j :: 0 <= i < j < |listed| ==> LexLess(listed[j], listed[i])
    ensures forall i, j :: 0 <= i < j < |times| ==> Before(times[j], times[i])
  {
    forall i, j | 0 <= i < j < |times| ensures Before(times[j], times[i]) {
      BackupNameOrder(BACKUP_PREFIX, times[j], times[i]);
    }
  }
}
