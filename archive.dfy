/**
 * The final ZIP archive as a set of entries, and how each script names them:
 * build_pack.py writes every file below the output directory under its path
 * relative to the output directory's parent; `shutil.make_archive` (used by
 * atmo_pack_builder.py) writes files and directories relative to the output
 * directory itself.
 */
module Archive {
  import opened Paths
  import opened FileTree

  datatype Entry = FileEntry(name: Path, data: Blob) | DirEntry(name: Path)

  /** No two file entries share a name, so extracting the archive is well defined. */
  predicate UniqueNames(entries: set<Entry>)
  {
    forall e1, e2 :: e1 in entries && e2 in entries && e1.FileEntry? && e2.FileEntry? && e1.name == e2.name ==> e1 == e2
  }

  /** One file entry per file below root, named by its path relative to base. */
  function PackFiles(files: map<Path, Blob>, root: Path, base: Path): set<Entry>
    requires base <= root
  {
    set p | p in files && root < p :: FileEntry(p[|base|..], files[p])
  }

  /** What `shutil.make_archive(name, 'zip', root)` writes: every file and every directory below root, relative to root. */
  function PackTree(files: map<Path, Blob>, dirs: set<Path>, root: Path): set<Entry>
  {
    PackFiles(files, root, root) + set d | d in dirs && root < d :: DirEntry(d[|root|..])
  }

  /** The files that extracting the archive at dest produces. */
  function ExtractFiles(entries: set<Entry>, dest: Path): map<Path, Blob>
    requires UniqueNames(entries)
  {
    assert forall e1, e2 ::
      e1 in entries && e2 in entries && e1.FileEntry? && e2.FileEntry? && dest + e1.name == dest + e2.name ==> e1 == e2
    by {
      forall e1, e2 | e1 in entries && e2 in entries && e1.FileEntry? && e2.FileEntry? && dest + e1.name == dest + e2.name
        ensures e1 == e2
      {
        assert e1.name == (dest + e1.name)[|dest|..];
        assert e2.name == (dest + e2.name)[|dest|..];
      }
    }
    map e | e in entries && e.FileEntry? :: dest + e.name := e.data
  }

  /** Every entry comes from exactly one file below root, and every such file gives exactly one entry. */
  lemma PackFilesBijective(files: map<Path, Blob>, root: Path, base: Path)
    requires base <= root
    ensures UniqueNames(PackFiles(files, root, base))
    ensures forall p :: p in FilesBelow(files, root) ==> FileEntry(p[|base|..], files[p]) in PackFiles(files, root, base)
    ensures forall e :: e in PackFiles(files, root, base) ==>
              e.FileEntry? && base + e.name in FilesBelow(files, root) && e.data == files[base + e.name]
  {
    var a := PackFiles(files, root, base);
    forall e | e in a ensures e.FileEntry? && base + e.name in FilesBelow(files, root) && e.data == files[base + e.name] {
      var p :| p in files && root < p && e == FileEntry(p[|base|..], files[p]);
      assert base + e.name == p;
    }
    forall e1, e2 | e1 in a && e2 in a && e1.FileEntry? && e2.FileEntry? && e1.name == e2.name ensures e1 == e2 {
      assert base + e1.name == base + e2.name;
    }
  }

  /** Extracting the archive where its names are rooted gives back exactly the files below root. */
  lemma PackFilesRoundTrip(files: map<Path, Blob>, root: Path, base: Path)
    requires base <= root
    ensures UniqueNames(PackFiles(files, root, base))
    ensures ExtractFiles(PackFiles(files, root, base), base) == FilesBelow(files, root)
  {
    PackFilesBijective(files, root, base);
    var a := PackFiles(files, root, base);
    var x := ExtractFiles(a, base);
    var f := FilesBelow(files, root);
    forall p | p in f ensures p in x && x[p] == f[p] {
      var e := FileEntry(p[|base|..], files[p]);
      assert e in a;
      assert base + e.name == p;
    }
    forall q | q in x ensures q in f {
      var e :| e in a && e.FileEntry? && q == base + e.name;
    }
    assert x.Keys == f.Keys;
  }

  /** The layout build_pack.py packs: names are relative to root's parent, so each starts with root's own name. */
  lemma NamesStartWithRoot(files: map<Path, Blob>, root: Path)
    requires |root| > 0
    ensures forall e :: e in PackFiles(files, root, Parent(root)) ==>
              |e.name| >= 2 && e.name[..1] == root[|root| - 1..]
  {
    forall e | e in PackFiles(files, root, Parent(root)) ensures |e.name| >= 2 && e.name[..1] == root[|root| - 1..] {
      var p :| p in files && root < p && e == FileEntry(p[|root| - 1..], files[p]);
      assert p[..|root|] == root;
    }
  }

  /** A tree that lies wholly in a top-level directory, packed with names relative to the working directory: the names are the paths themselves. */
  lemma PackedFromTop(files: map<Path, Blob>, root: Path)
    requires |root| == 1 && forall p :: p in files ==> root < p
    ensures forall e :: e in PackFiles(files, root, []) ==> e.FileEntry? && |e.name| >= 2 && e.name[0] == root[0]
    ensures forall p :: p in files ==> FileEntry(p, files[p]) in PackFiles(files, root, [])
    ensures UniqueNames(PackFiles(files, root, [])) && ExtractFiles(PackFiles(files, root, []), []) == files
  {
    NamesStartWithRoot(files, root);
    PackFilesBijective(files, root, []);
    PackFilesRoundTrip(files, root, []);
    assert FilesBelow(files, root) == files;
    forall e | e in PackFiles(files, root, []) ensures e.FileEntry? && |e.name| >= 2 && e.name[0] == root[0] {
      assert e.name[..1] == root;
    }
    forall p | p in files ensures FileEntry(p, files[p]) in PackFiles(files, root, []) {
      assert p[0..] == p;
    }
  }

  /** `shutil.make_archive` roots its names at the directory itself: extracting at root gives back its files, and the directories below root appear once each. */
  lemma PackTreeRoundTrip(files: map<Path, Blob>, dirs: set<Path>, root: Path)
    ensures UniqueNames(PackTree(files, dirs, root))
    ensures ExtractFiles(PackTree(files, dirs, root), root) == FilesBelow(files, root)
    ensures forall e :: e in PackTree(files, dirs, root) && e.DirEntry? ==> |e.name| > 0 && root + e.name in DirsBelow(dirs, root)
    ensures forall d :: d in DirsBelow(dirs, root) ==> DirEntry(d[|root|..]) in PackTree(files, dirs, root)
  {
    var a := PackTree(files, dirs, root);
    var fa := PackFiles(files, root, root);
    PackFilesRoundTrip(files, root, root);
    assert forall e :: e in a && e.FileEntry? ==> e in fa;
    assert ExtractFiles(a, root) == ExtractFiles(fa, root);
    forall e | e in a && e.DirEntry? ensures |e.name| > 0 && root + e.name in DirsBelow(dirs, root) {
      var d :| d in dirs && root < d && e == DirEntry(d[|root|..]);
      assert root + e.name == d;
    }
  }

  /** A tree that lies wholly below root, packed by `shutil.make_archive`: each file appears under its path relative to root, and extracting at root gives the tree back. */
  lemma PackedTreeFromRoot(files: map<Path, Blob>, dirs: set<Path>, root: Path)
    requires forall p :: p in files ==> root < p
    ensures forall p :: p in files ==> FileEntry(p[|root|..], files[p]) in PackTree(files, dirs, root)
    ensures UniqueNames(PackTree(files, dirs, root)) && ExtractFiles(PackTree(files, dirs, root), root) == files
  {
    PackTreeRoundTrip(files, dirs, root);
    assert FilesBelow(files, root) == files;
  }

  /** The archive sees only what lies below root. */
  lemma PackOnlyBelow(files: map<Path, Blob>, dirs: set<Path>, root: Path, base: Path)
    requires base <= root
    ensures PackFiles(files, root, base) == PackFiles(FilesBelow(files, root), root, base)
    ensures PackTree(files, dirs, root) == PackTree(FilesBelow(files, root), DirsBelow(dirs, root), root)
  {
  }

  /** The `os.walk` loop of build_pack.py: each file below root is added under its name relative to base. */
  method ZipDirectory(files: map<Path, Blob>, root: Path, base: Path) returns (entries: set<Entry>)
    requires base <= root
    ensures entries == PackFiles(files, root, base)
  {
    entries := {};
    var todo := FilesBelow(files, root).Keys;
    while todo != {}
      invariant todo <= FilesBelow(files, root).Keys
      invariant entries == set p | p in files && root < p && p !in todo :: FileEntry(p[|base|..], files[p])
      decreases todo
    {
      var p :| p in todo;
      entries := entries + {FileEntry(p[|base|..], files[p])};
      todo := todo - {p};
    }
  }
}
