/** The automatic backup service of auto_backup.py.  The scheduler is
    modelled by its `running` flag and its table of jobs (id to trigger);
    the jobs' later firings, the clock and the file system are parameters
    of the methods that use them. */
module AutoBackup {
  import opened Common
  import opened Files
  import opened Naming
  import opened Retention

  const AUTO_PREFIX: string := "bibliotech_auto_"
  const DEFAULT_DB_PATH: Path := Path("instance", "bibliotech.db")
  const DEFAULT_BACKUP_FOLDER: string := "backups"
  /** Default of the constructor's `keep_backups`. */
  const DEFAULT_KEEP_BACKUPS: nat := 30
  /** The `keep_backups` that `init_backup_service` passes. */
  const SERVICE_KEEP_BACKUPS: nat := 50

  const DAILY_JOB: string := "daily_backup"
  const HOURLY_JOB: string := "hourly_backup"
  const INTERVAL_JOB: string := "interval_backup"

  /** `CronTrigger(hour=h, minute=m)`, or `trigger='interval'` with a period
      in minutes (`hours=1` is a period of 60). */
  datatype Trigger = Cron(hour: int, minute: int) | Interval(minutes: int)

  /** The snapshot a backup at `now` writes. */
  function SnapshotPath(folder: string, now: DateTime): (p: Path)
    requires now.Valid()
    ensures p.dir == folder && IsBackupName(p.name, AUTO_PREFIX)
  {
    Path(folder, BackupName(AUTO_PREFIX, now))
  }

  /** Whether `create_backup` gets past its checks and its copy: the
      database exists, and `shutil.copy2` finds the target folder and a
      target distinct from the source. */
  predicate CanBackUp(files: map<Path, FileData>, dirs: set<string>, db: Path, folder: string, now: DateTime)
    requires now.Valid()
  {
    db in files && folder in dirs && db != SnapshotPath(folder, now)
  }

  /** The file table after `create_backup`: unchanged when it returns
      False; otherwise the snapshot holds the database's bytes and
      modification time, and the folder has then been cleaned. */
  ghost predicate BackupOutcome(before: map<Path, FileData>, after: map<Path, FileData>, dirs: set<string>,
                                db: Path, folder: string, keep: nat, now: DateTime)
    requires now.Valid()
  {
    if CanBackUp(before, dirs, db, folder, now) then
      PrunedFrom(before[SnapshotPath(folder, now) := before[db]], after, folder, AUTO_PREFIX, keep)
    else
      after == before
  }

  /** `get_backup_info()` without the size: the number of automatic
      snapshots and the greatest name among them. */
  datatype BackupInfo = BackupInfo(count: nat, latest: Option<string>)

  class AutoBackupService {
    const db_path: Path
    const backup_folder: string
    const keep_backups: nat
    /** `self.scheduler.running` */
    var running: bool
    /** The jobs added to the scheduler, by id. */
    var jobs: map<string, Trigger>

    /** Builds a stopped scheduler with no job and creates the backup folder. */
    constructor (fs: FileSystem, db_path: Path := DEFAULT_DB_PATH, backup_folder: string := DEFAULT_BACKUP_FOLDER,
                 keep_backups: nat := DEFAULT_KEEP_BACKUPS)
      requires fs.Valid()
      modifies fs`dirs
      ensures fs.Valid() && fs.dirs == old(fs.dirs) + {backup_folder}
      ensures this.db_path == db_path && this.backup_folder == backup_folder && this.keep_backups == keep_backups
      ensures !running && jobs == map[]
    {
      this.db_path := db_path;
      this.backup_folder := backup_folder;
      this.keep_backups := keep_backups;
      running := false;
      jobs := map[];
      new;
      fs.MakeDirs(backup_folder);
    }

    /** `cleanup_old_backups()`; a missing folder makes `os.listdir` raise,
        which the method catches. */
    method CleanupOldBackups(fs: FileSystem)
      requires fs.Valid()
      modifies fs`files
      ensures fs.Valid()
      ensures backup_folder !in fs.dirs ==> fs.files == old(fs.files)
      ensures backup_folder in fs.dirs ==> PrunedFrom(old(fs.files), fs.files, backup_folder, AUTO_PREFIX, keep_backups)
    {
      if backup_folder in fs.dirs {
        var _ := PruneBackups(fs, backup_folder, AUTO_PREFIX, keep_backups);
      }
    }

    /** `create_backup()` at the instant `now`. */
    method CreateBackup(fs: FileSystem, now: DateTime) returns (ok: bool)
      requires fs.Valid() && now.Valid()
      modifies fs`files
      ensures fs.Valid()
      ensures ok == CanBackUp(old(fs.files), fs.dirs, db_path, backup_folder, now)
      ensures BackupOutcome(old(fs.files), fs.files, fs.dirs, db_path, backup_folder, keep_backups, now)
    {
      if db_path !in fs.files {
        return false;
      }
      var copied := fs.Copy2(db_path, SnapshotPath(backup_folder, now));
      if !copied {
        return false;
      }
      CleanupOldBackups(fs);
      return true;
    }

    /** `add_job(..., id='daily_backup', replace_existing=True)` */
    method StartDailyBackup(hour: int := 2, minute: int := 0)
      modifies this`jobs
      ensures jobs == old(jobs)[DAILY_JOB := Cron(hour, minute)]
    {
      jobs := jobs[DAILY_JOB := Cron(hour, minute)];
    }

    method StartHourlyBackup()
      modifies this`jobs
      ensures jobs == old(jobs)[HOURLY_JOB := Interval(60)]
    {
      jobs := jobs[HOURLY_JOB := Interval(60)];
    }

    method StartIntervalBackup(minutes: int := 30)
      modifies this`jobs
      ensures jobs == old(jobs)[INTERVAL_JOB := Interval(minutes)]
    {
      jobs := jobs[INTERVAL_JOB := Interval(minutes)];
    }

    /** `start()`: a stopped service starts and takes one backup at once;
        a running one is left as it is. */
    method Start(fs: FileSystem, now: DateTime)
      requires fs.Valid() && now.Valid()
      modifies this`running, fs`files
      ensures fs.Valid() && running
      ensures old(running) ==> fs.files == old(fs.files)
      ensures !old(running) ==> BackupOutcome(old(fs.files), fs.files, fs.dirs, db_path, backup_folder, keep_backups, now)
    {
      if !running {
        running := true;
        var _ := CreateBackup(fs, now);
      }
    }

    /** `stop()`: shuts the scheduler down when it runs; otherwise nothing. */
    method Stop()
      modifies this`running
      ensures !running
    {
      if running {
        running := false;
      }
    }

    /** `get_backup_info()`; a missing folder gives the fallback of the
        `except` branch. */
    method GetBackupInfo(fs: FileSystem) returns (info: BackupInfo)
      ensures backup_folder !in fs.dirs ==> info == BackupInfo(0, None)
      ensures backup_folder in fs.dirs ==> info.count == |Matching(fs.files, backup_folder, AUTO_PREFIX)|
      ensures info.latest.None? <==> info.count == 0
      ensures info.latest.Some? ==>
                && Path(backup_folder, info.latest.value) in Matching(fs.files, backup_folder, AUTO_PREFIX)
                && forall p :: p in Matching(fs.files, backup_folder, AUTO_PREFIX) ==> !LexLess(info.latest.value, p.name)
    {
      if backup_folder !in fs.dirs {
        return BackupInfo(0, None);
      }
      var names := ListBackupNames(fs, backup_folder, AUTO_PREFIX);
      if names == [] {
        return BackupInfo(0, None);
      }
      var latest := LexMax(names);
      forall p | p in Matching(fs.files, backup_folder, AUTO_PREFIX) ensures !LexLess(latest, p.name) {
        assert p == Path(backup_folder, p.name) && p.name in names;
      }
      return BackupInfo(|names|, Some(latest));
    }
  }

  /** A snapshot more recent than every automatic snapshot already in the
      folder survives the cleanup of the backup that wrote it. */
  lemma {:induction false} NewSnapshotKept(before: map<Path, FileData>, after: map<Path, FileData>, dirs: set<string>,
                                            db: Path, folder: string, keep: nat, now: DateTime)
    requires now.Valid() && CanBackUp(before, dirs, db, folder, now)
    requires BackupOutcome(before, after, dirs, db, folder, keep, now)
    requires keep >= 1
    requires forall q :: q in Matching(before, folder, AUTO_PREFIX) ==> before[q].mtime < before[db].mtime
    ensures SnapshotPath(folder, now) in after && after[SnapshotPath(folder, now)] == before[db]
  {
    var snap := SnapshotPath(folder, now);
    var staged := before[snap := before[db]];
    forall q | q in Matching(staged, folder, AUTO_PREFIX) && q != snap
      ensures staged[q].mtime < staged[snap].mtime
    {
      assert q in Matching(before, folder, AUTO_PREFIX);
    }
    NewestSurvives(staged, after, folder, AUTO_PREFIX, keep, snap);
  }

  const MODES: set<string> := {"daily", "hourly", "interval"}

  /** `init_backup_service(app, mode, **kwargs)`: builds the service with
      `keep_backups=50`; an unknown mode returns None before `start()`;
      otherwise the one job of the mode is added and the service started,
      which takes the first backup. */
  method InitBackupService(fs: FileSystem, mode: string, hour: Option<int>, minute: Option<int>, minutes: Option<int>,
                           now: DateTime) returns (service: Option<AutoBackupService>)
    requires fs.Valid() && now.Valid()
    modifies fs
    ensures fs.Valid() && fs.dirs == old(fs.dirs) + {DEFAULT_BACKUP_FOLDER}
    ensures mode !in MODES ==> service.None? && fs.files == old(fs.files)
    ensures mode in MODES ==>
              && service.Some? && fresh(service.value)
              && service.value.db_path == DEFAULT_DB_PATH
              && service.value.backup_folder == DEFAULT_BACKUP_FOLDER
              && service.value.keep_backups == SERVICE_KEEP_BACKUPS
              && service.value.running
              && (mode == "daily" ==> service.value.jobs == map[DAILY_JOB := Cron(hour.GetOr(2), minute.GetOr(0))])
              && (mode == "hourly" ==> service.value.jobs == map[HOURLY_JOB := Interval(60)])
              && (mode == "interval" ==> service.value.jobs == map[INTERVAL_JOB := Interval(minutes.GetOr(30))])
              && |service.value.jobs| == 1
              && BackupOutcome(old(fs.files), fs.files, fs.dirs, DEFAULT_DB_PATH, DEFAULT_BACKUP_FOLDER,
                               SERVICE_KEEP_BACKUPS, now)
  {
    var s := new AutoBackupService(fs, keep_backups := SERVICE_KEEP_BACKUPS);
    if mode == "daily" {
      s.StartDailyBackup(hour.GetOr(2), minute.GetOr(0));
    } else if mode == "hourly" {
      s.StartHourlyBackup();
    } else if mode == "interval" {
      s.StartIntervalBackup(minutes.GetOr(30));
    } else {
      return None;
    }
    s.Start(fs, now);
    return Some(s);
  }
}
