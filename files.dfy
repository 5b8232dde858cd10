/** The part of the file system the backup scripts touch: files named by a
    directory and a base name (`os.path.join(dir, name)`), each with its
    bytes and its modification time, and the set of existing directories.
    Paths are compared as written: no normalisation, no links. */
module Files {
  import opened Common

  datatype FileData = FileData(content: seq<bv8>, mtime: int)

  datatype Path = Path(dir: string, name: string)

  class FileSystem {
    var files: map<Path, FileData>
    var dirs: set<string>

    /** Every file lives in an existing directory. */
    ghost predicate Valid()
      reads this
    {
      forall p :: p in files ==> p.dir in dirs
    }

    constructor (files: map<Path, FileData>, dirs: set<string>)
      requires forall p :: p in files ==> p.dir in dirs
      ensures Valid()
      ensures this.files == files && this.dirs == dirs
    {
      this.files := files;
      this.dirs := dirs;
    }

    /** `os.makedirs(d, exist_ok=True)` */
    method MakeDirs(d: string)
      requires Valid()
      modifies this`dirs
      ensures Valid()
      ensures dirs == old(dirs) + {d}
    {
      dirs := dirs + {d};
    }

    /** `shutil.copy2(src, dst)`: copies the bytes and the modification
        time.  It raises (`ok` false, nothing written) when the source is
        missing, when the target directory is missing, and with
        `SameFileError` when both name the same file. */
    method Copy2(src: Path, dst: Path) returns (ok: bool)
      requires Valid()
      modifies this`files
      ensures Valid()
      ensures ok <==> src in old(files) && dst.dir in dirs && src != dst
      ensures ok ==> files == old(files)[dst := old(files)[src]]
      ensures !ok ==> files == old(files)
    {
      if src in files && dst.dir in dirs && src != dst {
        files := files[dst := files[src]];
        ok := true;
      } else {
        ok := false;
      }
    }

    /** `os.remove(p)` */
    method Remove(p: Path)
      requires Valid() && p in files
      modifies this`files
      ensures Valid()
      ensures files == old(files) - {p}
    {
      files := files - {p};
    }

    /** `os.listdir(d)`: every name of the directory once, in an order the
        file system chooses. */
    method ListDir(d: string) returns (names: seq<string>)
      requires d in dirs
      ensures Distinct(names)
      ensures forall n :: n in names <==> Path(d, n) in files
    {
      var pending := set p | p in files && p.dir == d :: p.name;
      names := [];
      while pending != {}
        invariant Distinct(names)
        invariant forall n :: n in names ==> Path(d, n) in files && n !in pending
        invariant forall n :: Path(d, n) in files ==> n in names || n in pending
        invariant forall n :: n in pending ==> Path(d, n) in files
        decreases |pending|
      {
        var n :| n in pending;
        names := names + [n];
        pending := pending - {n};
      }
    }
  }
}
