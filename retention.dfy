/** Snapshot retention, shared by auto_backup.py and backup.py: list the
    backup folder, keep the names with the snapshot prefix and the `.db`
    suffix, sort them newest first by modification time and remove every
    one after the first `keep`.  `PrunedFrom` states the outcome as a
    relation between the file tables before and after, because files with
    equal modification times may be kept in either order. */
module Retention {
  import opened Common
  import opened Files
  import opened Naming

  /** `f.startswith(prefix) and f.endswith('.db')` */
  predicate IsBackupName(name: string, prefix: string) {
    StartsWith(name, prefix) && EndsWith(name, DB_SUFFIX)
  }

  /** The list comprehension over `os.listdir`. */
  function FilterBackups(names: seq<string>, prefix: string): (r: seq<string>)
    ensures forall n :: n in r <==> n in names && IsBackupName(n, prefix)
    ensures Distinct(names) ==> Distinct(r)
  {
    if names == [] then []
    else
      var rest := FilterBackups(names[1..], prefix);
      assert forall n :: n in names <==> n == names[0] || n in names[1..];
      if IsBackupName(names[0], prefix) then [names[0]] + rest else rest
  }

  /** The matching files of `dir` in a file table. */
  ghost function Matching(files: map<Path, FileData>, dir: string, prefix: string): set<Path> {
    set p | p in files && p.dir == dir && IsBackupName(p.name, prefix)
  }

  ghost function Elems<T>(s: seq<T>): set<T> {
    set x | x in s
  }

  predicate AllIn(ps: seq<Path>, files: map<Path, FileData>) {
    forall p :: p in ps ==> p in files
  }

  /** Ordered by `os.path.getmtime`, most recent first. */
  predicate NewestFirst(ps: seq<Path>, files: map<Path, FileData>)
    requires AllIn(ps, files)
  {
    forall i, j :: 0 <= i < j < |ps| ==> files[ps[i]].mtime >= files[ps[j]].mtime
  }

  /** The head of a newest-first list is at least as recent as any entry. */
  lemma HeadIsNewest(ps: seq<Path>, files: map<Path, FileData>)
    requires |ps| > 0 && AllIn(ps, files) && NewestFirst(ps, files)
    ensures forall x :: x in ps ==> files[ps[0]].mtime >= files[x].mtime
  {
    forall x | x in ps ensures files[ps[0]].mtime >= files[x].mtime {
      var i :| 0 <= i < |ps| && ps[i] == x;
    }
  }

  /** Putting in front an entry at least as recent as all the others keeps
      the order. */
  lemma ConsNewestFirst(h: Path, t: seq<Path>, files: map<Path, FileData>)
    requires h in files && AllIn(t, files) && NewestFirst(t, files)
    requires forall x :: x in t ==> files[h].mtime >= files[x].mtime
    ensures AllIn([h] + t, files) && NewestFirst([h] + t, files)
  {
    var r := [h] + t;
    forall i, j | 0 <= i < j < |r| ensures files[r[i]].mtime >= files[r[j]].mtime {
      assert r[j] == t[j - 1];
      if i > 0 {
        assert r[i] == t[i - 1];
      }
    }
  }

  function InsertByMtime(p: Path, ps: seq<Path>, files: map<Path, FileData>): (r: seq<Path>)
    requires p in files && AllIn(ps, files) && NewestFirst(ps, files)
    ensures multiset(r) == multiset(ps) + multiset{p}
    ensures AllIn(r, files) && NewestFirst(r, files)
  {
    if ps == [] then [p]
    else if files[p].mtime >= files[ps[0]].mtime then
      HeadIsNewest(ps, files);
      ConsNewestFirst(p, ps, files);
      [p] + ps
    else
      var t := InsertByMtime(p, ps[1..], files);
      assert multiset(ps) == multiset{ps[0]} + multiset(ps[1..]) by { assert ps == [ps[0]] + ps[1..]; }
      HeadIsNewest(ps, files);
      forall x | x in t ensures files[ps[0]].mtime >= files[x].mtime {
        assert x in multiset(t);
        assert x == p || x in multiset(ps[1..]);
      }
      ConsNewestFirst(ps[0], t, files);
      [ps[0]] + t
  }

  /** `backups.sort(key=os.path.getmtime, reverse=True)` */
  function SortByMtime(ps: seq<Path>, files: map<Path, FileData>): (r: seq<Path>)
    requires AllIn(ps, files)
    ensures multiset(r) == multiset(ps)
    ensures AllIn(r, files) && NewestFirst(r, files)
  {
    if ps == [] then []
    else
      assert ps == [ps[0]] + ps[1..];
      InsertByMtime(ps[0], SortByMtime(ps[1..], files), files)
  }

  /** The outcome of one cleanup of `dir`: only matching files are removed,
      the others are untouched, exactly `min(keep, n)` of the `n` matching
      files remain, and none of the removed ones is more recent than one
      that remains. */
  ghost predicate PrunedFrom(before: map<Path, FileData>, after: map<Path, FileData>, dir: string, prefix: string, keep: nat) {
    var matching := Matching(before, dir, prefix);
    var removed := before.Keys - after.Keys;
    && after.Keys <= before.Keys
    && (forall p :: p in after ==> after[p] == before[p])
    && removed <= matching
    && |matching - removed| == Min(keep, |matching|)
    && (forall k, d :: k in matching - removed && d in removed ==> before[k].mtime >= before[d].mtime)
  }

  /** Cutting a sequence without repetition at `k` splits its elements in
      two disjoint parts, the first of `k` elements. */
  lemma SplitDistinct<T>(s: seq<T>, k: nat)
    requires Distinct(s) && k <= |s|
    ensures Elems(s[k..]) <= Elems(s)
    ensures Elems(s) - Elems(s[k..]) == Elems(s[..k])
    ensures |Elems(s[..k])| == k && |Elems(s)| == |s|
  {
    forall x | x in s[..k] ensures x !in s[k..] {
      var a :| 0 <= a < k && s[a] == x;
    }
    assert s == s[..k] + s[k..];
    DistinctCard(s);
    DistinctCard(s[..k]);
  }

  /** Removing every entry after the first `keep` of the sorted matching
      files is a cleanup in the sense of `PrunedFrom`. */
  lemma {:induction false} CutAtKeep(before: map<Path, FileData>, dir: string, prefix: string, keep: nat, backups: seq<Path>)
    requires AllIn(backups, before) && NewestFirst(backups, before) && Distinct(backups)
    requires Elems(backups) == Matching(before, dir, prefix)
    ensures PrunedFrom(before, before - Elems(backups[Min(keep, |backups|)..]), dir, prefix, keep)
  {
    var k := Min(keep, |backups|);
    var after := before - Elems(backups[k..]);
    var matching := Matching(before, dir, prefix);
    SplitDistinct(backups, k);
    var removed := before.Keys - after.Keys;
    assert after.Keys == before.Keys - Elems(backups[k..]);
    assert removed == Elems(backups[k..]);
    assert matching - removed == Elems(backups[..k]);
    assert |matching - removed| == k == Min(keep, |matching|);
    forall c, d | c in matching - removed && d in removed ensures before[c].mtime >= before[d].mtime {
      KeptNotOlder(before, backups, k, c, d);
    }
  }

  /** In a newest-first sequence, an entry before the cut is at least as
      recent as one after it. */
  lemma KeptNotOlder(files: map<Path, FileData>, backups: seq<Path>, k: nat, c: Path, d: Path)
    requires AllIn(backups, files) && NewestFirst(backups, files) && k <= |backups|
    requires c in backups[..k] && d in backups[k..]
    ensures c in files && d in files && files[c].mtime >= files[d].mtime
  {
    var a :| 0 <= a < k && backups[a] == c;
    var b :| 0 <= b < |backups| - k && backups[k..][b] == d;
    assert backups[k + b] == d;
  }

  /** `[f for f in os.listdir(dir) if f.startswith(prefix) and f.endswith('.db')]`:
      the names of the matching files of `dir`, each once. */
  method ListBackupNames(fs: FileSystem, dir: string, prefix: string) returns (names: seq<string>)
    requires dir in fs.dirs
    ensures Distinct(names)
    ensures forall n :: n in names <==> Path(dir, n) in Matching(fs.files, dir, prefix)
    ensures |names| == |Matching(fs.files, dir, prefix)|
  {
    var listed := fs.ListDir(dir);
    names := FilterBackups(listed, prefix);
    MatchingCard(fs.files, dir, prefix, names);
  }

  /** The same list joined with the directory: `os.path.join(dir, f)`. */
  function JoinAll(dir: string, names: seq<string>): (paths: seq<Path>)
    ensures |paths| == |names|
    ensures forall i :: 0 <= i < |names| ==> paths[i] == Path(dir, names[i])
  {
    seq(|names|, i requires 0 <= i < |names| => Path(dir, names[i]))
  }

  lemma MatchingCard(files: map<Path, FileData>, dir: string, prefix: string, names: seq<string>)
    requires Distinct(names)
    requires forall n :: n in names <==> Path(dir, n) in Matching(files, dir, prefix)
    ensures Elems(JoinAll(dir, names)) == Matching(files, dir, prefix)
    ensures Distinct(JoinAll(dir, names))
    ensures |Matching(files, dir, prefix)| == |names|
  {
    var paths := JoinAll(dir, names);
    forall p | p in Matching(files, dir, prefix) ensures p in paths {
      assert p == Path(dir, p.name) && p.name in names;
      var i :| 0 <= i < |names| && names[i] == p.name;
      assert paths[i] == p;
    }
    DistinctCard(paths);
  }

  /** The list of `cleanup_old_backups` after the sort: the matching files
      of `dir`, each once, newest first. */
  method SortedBackups(fs: FileSystem, dir: string, prefix: string) returns (backups: seq<Path>)
    requires dir in fs.dirs
    ensures AllIn(backups, fs.files) && NewestFirst(backups, fs.files) && Distinct(backups)
    ensures Elems(backups) == Matching(fs.files, dir, prefix)
  {
    var names := ListBackupNames(fs, dir, prefix);
    MatchingCard(fs.files, dir, prefix, names);
    var paths := JoinAll(dir, names);
    backups := SortByMtime(paths, fs.files);
    DistinctPermutation(paths, backups);
    assert Elems(backups) == Elems(paths) by {
      forall p ensures p in backups <==> p in paths {
        assert p in backups <==> p in multiset(backups);
      }
    }
  }

  /** Removing the first `i + 1` entries is removing the first `i`, then
      entry `i`. */
  lemma RemoveOneMore(files: map<Path, FileData>, s: seq<Path>, i: nat)
    requires i < |s|
    ensures files - Elems(s[..i + 1]) == (files - Elems(s[..i])) - {s[i]}
  {
    assert s[..i + 1] == s[..i] + [s[i]];
    assert Elems(s[..i + 1]) == Elems(s[..i]) + {s[i]};
  }

  /** `cleanup_old_backups`: the loop over `backups[keep:]` removes the
      files one by one; `deleted` is the count the automatic service keeps. */
  method PruneBackups(fs: FileSystem, dir: string, prefix: string, keep: nat) returns (deleted: nat)
    requires fs.Valid() && dir in fs.dirs
    modifies fs`files
    ensures fs.Valid()
    ensures PrunedFrom(old(fs.files), fs.files, dir, prefix, keep)
    ensures deleted == |old(fs.files).Keys - fs.files.Keys|
  {
    ghost var before := fs.files;
    var backups := SortedBackups(fs, dir, prefix);
    var doomed := backups[Min(keep, |backups|)..];
    assert Distinct(doomed) && AllIn(doomed, before);
    deleted := 0;
    while deleted < |doomed|
      invariant deleted <= |doomed|
      invariant fs.Valid()
      invariant fs.files == before - Elems(doomed[..deleted])
    {
      RemoveOneMore(before, doomed, deleted);
      assert doomed[deleted] in fs.files by {
        assert doomed[deleted] !in doomed[..deleted];
      }
      fs.Remove(doomed[deleted]);
      deleted := deleted + 1;
    }
    assert doomed[..deleted] == doomed;
    CutAtKeep(before, dir, prefix, keep, backups);
    RemovedCount(before, doomed);
  }

  lemma RemovedCount(files: map<Path, FileData>, doomed: seq<Path>)
    requires Distinct(doomed) && AllIn(doomed, files)
    ensures |files.Keys - (files - Elems(doomed)).Keys| == |doomed|
  {
    assert files.Keys - (files - Elems(doomed)).Keys == Elems(doomed);
    DistinctCard(doomed);
  }

  // ---- what a cleanup guarantees ----

  /** After a cleanup at most `keep` matching files remain, and they are
      the matching files that were not removed. */
  lemma {:induction false} PrunedKeepsAtMost(before: map<Path, FileData>, after: map<Path, FileData>, dir: string, prefix: string, keep: nat)
    requires PrunedFrom(before, after, dir, prefix, keep)
    ensures Matching(after, dir, prefix) == Matching(before, dir, prefix) - (before.Keys - after.Keys)
    ensures |Matching(after, dir, prefix)| == Min(keep, |Matching(before, dir, prefix)|) <= keep
  {
    assert Matching(after, dir, prefix) == Matching(before, dir, prefix) - (before.Keys - after.Keys);
  }

  /** With no more than `keep` matching files, a cleanup removes nothing. */
  lemma {:induction false} FewBackupsUntouched(before: map<Path, FileData>, after: map<Path, FileData>, dir: string, prefix: string, keep: nat)
    requires PrunedFrom(before, after, dir, prefix, keep)
    requires |Matching(before, dir, prefix)| <= keep
    ensures after == before
  {
    var matching := Matching(before, dir, prefix);
    var removed := before.Keys - after.Keys;
    assert matching == (matching - removed) + removed;
    assert removed == {};
    assert after.Keys == before.Keys;
  }

  /** A file the filter does not select survives a cleanup unchanged. */
  lemma OthersUntouched(before: map<Path, FileData>, after: map<Path, FileData>, dir: string, prefix: string, keep: nat, p: Path)
    requires PrunedFrom(before, after, dir, prefix, keep)
    requires p in before && !(p.dir == dir && IsBackupName(p.name, prefix))
    ensures p in after && after[p] == before[p]
  {
    assert p !in Matching(before, dir, prefix);
  }

  /** A matching file strictly more recent than every other matching file
      survives any cleanup that keeps at least one. */
  lemma {:induction false} NewestSurvives(before: map<Path, FileData>, after: map<Path, FileData>, dir: string, prefix: string, keep: nat, p: Path)
    requires PrunedFrom(before, after, dir, prefix, keep)
    requires keep >= 1 && p in Matching(before, dir, prefix)
    requires forall q :: q in Matching(before, dir, prefix) && q != p ==> before[q].mtime < before[p].mtime
    ensures p in after
  {
  }
}
