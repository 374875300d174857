/**
 * The working directory the scripts run in, as an abstract file system: a set of
 * directories and a map from file paths to their bytes. Its methods are the file
 * system calls the scripts make (`shutil.rmtree`, `Path.mkdir`, `open(..., 'wb')`,
 * `shutil.copy`, `ZipFile.extractall`), with the errors those calls raise.
 */
module FileTree {
  import opened Paths
  import opened Outcomes

  /** What `zipfile` finds in a blob: its file members, or None when the blob is not a ZIP archive. */
  type Members = map<RelPath, Blob>

  /** Everything in files except root and what lies below it. */
  function PruneFiles(files: map<Path, Blob>, root: Path): map<Path, Blob>
  {
    map p | p in files && !(root <= p) :: files[p]
  }

  function PruneDirs(dirs: set<Path>, root: Path): set<Path>
  {
    set p | p in dirs && !(root <= p)
  }

  /** The files strictly below root, which `os.walk(root)` visits. */
  function FilesBelow(files: map<Path, Blob>, root: Path): map<Path, Blob>
  {
    map p | p in files && root < p :: files[p]
  }

  /** The directories strictly below root. */
  function DirsBelow(dirs: set<Path>, root: Path): set<Path>
  {
    set d | d in dirs && root < d
  }

  /** The files `extractall(dest)` writes for the members m. */
  function Graft(dest: Path, m: Members): map<Path, Blob>
  {
    assert forall p, q :: p in m && q in m && dest + p == dest + q ==> p == q by {
      forall p, q | p in m && q in m && dest + p == dest + q ensures p == q {
        assert p == (dest + p)[|dest|..];
        assert q == (dest + q)[|dest|..];
      }
    }
    map p | p in m :: dest + p := m[p]
  }

  /** The directories `extractall(dest)` creates for the members m: every ancestor of every file it writes. */
  function GraftDirs(dest: Path, m: Members): set<Path>
  {
    set p, k | p in m && 0 < k < |dest| + |p| :: (dest + p)[..k]
  }

  lemma PrefixOfPrefix(root: Path, p: Path, k: nat)
    requires k <= |p| && root <= p[..k]
    ensures root <= p
  {
    assert p[..k][..|root|] == p[..|root|];
  }

  class Workspace {
    var dirs: set<Path>
    var files: map<Path, Blob>

    /** Every ancestor of a file or directory is a directory; the working directory itself is no entry. */
    ghost predicate Valid()
      reads this
    {
      && [] !in dirs && [] !in files
      && (forall p, k :: p in files && 0 < k < |p| ==> p[..k] in dirs)
      && (forall d, k :: d in dirs && 0 < k < |d| ==> d[..k] in dirs)
    }

    predicate Exists(p: Path)
      reads this
    {
      p in dirs || p in files
    }

    /** The directory p would be created in exists (top-level paths live in the working directory). */
    predicate ParentIsDir(p: Path)
      reads this
      requires |p| > 0
    {
      |p| == 1 || Parent(p) in dirs
    }

    /** `shutil.rmtree(root)`. */
    method RemoveTree(root: Path) returns (r: Result<()>)
      requires Valid()
      modifies this
      ensures Valid()
      ensures root in old(dirs) ==>
                r == Ok(()) && dirs == PruneDirs(old(dirs), root) && files == PruneFiles(old(files), root)
      ensures root !in old(dirs) ==>
                r == Err(if root in old(files) then NotADirectory(root) else FileNotFound(root)) &&
                dirs == old(dirs) && files == old(files)
    {
      if root !in dirs {
        return Err(if root in files then NotADirectory(root) else FileNotFound(root));
      }
      forall p, k | p in files && 0 < k < |p| && !(root <= p) ensures !(root <= p[..k]) {
        if root <= p[..k] { PrefixOfPrefix(root, p, k); }
      }
      forall d, k | d in dirs && 0 < k < |d| && !(root <= d) ensures !(root <= d[..k]) {
        if root <= d[..k] { PrefixOfPrefix(root, d, k); }
      }
      dirs := PruneDirs(dirs, root);
      files := PruneFiles(files, root);
      r := Ok(());
    }

    /** `Path(p).mkdir()`: the parent must exist and p must not. */
    method MakeDir(p: Path) returns (r: Result<()>)
      requires Valid() && |p| > 0
      modifies this
      ensures Valid() && files == old(files)
      ensures r.Ok? <==> !old(Exists(p)) && old(ParentIsDir(p))
      ensures r.Ok? ==> dirs == old(dirs) + {p}
      ensures r.Err? ==> dirs == old(dirs) &&
                         r.error == if old(Exists(p)) then FileExists(p) else FileNotFound(p)
    {
      if Exists(p) {
        return Err(FileExists(p));
      }
      if !ParentIsDir(p) {
        return Err(FileNotFound(p));
      }
      forall k | 0 < k < |p| ensures p[..k] in dirs {
        if k < |p| - 1 { assert Parent(p)[..k] == p[..k]; }
      }
      dirs := dirs + {p};
      r := Ok(());
    }

    /** `Path(p).mkdir(parents=True, exist_ok=True)`. */
    method MakeDirs(p: Path)
      requires Valid() && |p| > 0
      modifies this
      ensures Valid() && files == old(files)
      ensures dirs == old(dirs) + Chain(p)
    {
      forall d, k | d in Chain(p) && 0 < k < |d| ensures d[..k] in Chain(p) {
        var j :| 0 < j <= |p| && d == p[..j];
        assert d[..k] == p[..k];
      }
      dirs := dirs + Chain(p);
    }

    /** `open(p, 'wb')` followed by writing data (also `Path.write_text`). */
    method WriteFile(p: Path, data: Blob) returns (r: Result<()>)
      requires Valid() && |p| > 0
      modifies this
      ensures Valid() && dirs == old(dirs)
      ensures r.Ok? <==> old(ParentIsDir(p))
      ensures r.Ok? ==> files == old(files)[p := data]
      ensures r.Err? ==> r.error == FileNotFound(p) && files == old(files)
    {
      if !ParentIsDir(p) {
        return Err(FileNotFound(p));
      }
      forall k | 0 < k < |p| ensures p[..k] in dirs {
        if k < |p| - 1 { assert Parent(p)[..k] == p[..k]; }
      }
      files := files[p := data];
      r := Ok(());
    }

    /** `shutil.copy(src, dst)`: the source is opened before the destination. */
    method CopyFile(src: Path, dst: Path) returns (r: Result<()>)
      requires Valid() && |dst| > 0
      modifies this
      ensures Valid() && dirs == old(dirs)
      ensures src !in old(files) ==> r == Err(FileNotFound(src)) && files == old(files)
      ensures src in old(files) ==>
                (r.Ok? <==> old(ParentIsDir(dst))) &&
                (r.Ok? ==> files == old(files)[dst := old(files)[src]]) &&
                (r.Err? ==> r.error == FileNotFound(dst) && files == old(files))
    {
      if src !in files {
        return Err(FileNotFound(src));
      }
      r := WriteFile(dst, files[src]);
    }

    /** `zipfile.ZipFile(archive).extractall(dest)`: later members overwrite existing files. */
    method ExtractZip(archive: Path, dest: Path, unzip: Blob -> Option<Members>) returns (r: Result<()>)
      requires Valid() && |dest| > 0
      modifies this
      ensures Valid()
      ensures archive !in old(files) ==>
                r == Err(FileNotFound(archive)) && dirs == old(dirs) && files == old(files)
      ensures archive in old(files) && unzip(old(files)[archive]).None? ==>
                r == Err(BadZipFile(archive)) && dirs == old(dirs) && files == old(files)
      ensures archive in old(files) && unzip(old(files)[archive]).Some? ==>
                var m := unzip(old(files)[archive]).value;
                r == Ok(()) && files == old(files) + Graft(dest, m) && dirs == old(dirs) + GraftDirs(dest, m)
    {
      if archive !in files {
        return Err(FileNotFound(archive));
      }
      var members := unzip(files[archive]);
      if members.None? {
        return Err(BadZipFile(archive));
      }
      var m := members.value;
      forall q, k | q in Graft(dest, m) && 0 < k < |q| ensures q[..k] in GraftDirs(dest, m) {
        var p :| p in m && q == dest + p;
      }
      forall d, k | d in GraftDirs(dest, m) && 0 < k < |d| ensures d[..k] in GraftDirs(dest, m) {
        var p, j :| p in m && 0 < j < |dest| + |p| && d == (dest + p)[..j];
        assert d[..k] == (dest + p)[..k];
      }
      files := files + Graft(dest, m);
      dirs := dirs + GraftDirs(dest, m);
      r := Ok(());
    }
  }
}
