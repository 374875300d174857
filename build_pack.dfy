/**
 * build_pack.py: the purge, steps 1 to 7 with the plain release lookup, the
 * `os.walk` loop that packs Switch_Atmo_Integration_Pack.zip with names relative
 * to the parent of SD_ROOT, and the cleanup in `finally`.
 */
module BuildPack {
  import opened Paths
  import opened Outcomes
  import opened FileTree
  import opened Archive
  import opened Bundle

  const OUTPUT_DIR: Path := ["SD_ROOT"]

  /** The entries step 8 writes for the files of tree: every file below SD_ROOT, named relative to SD_ROOT's parent. */
  function Pack(tree: map<Path, Blob>): set<Entry>
  {
    PackFiles(tree, OUTPUT_DIR, Parent(OUTPUT_DIR))
  }

  /** How `main` ends, given the upstream answers and the working directory it starts in. */
  function Outcome(env: Upstream, files: map<Path, Blob>, dirs: set<Path>): RunResult
  {
    if Blocks(files, dirs, OUTPUT_DIR) then Crashed(NotADirectory(OUTPUT_DIR))
    else if Blocks(files, dirs, TEMP_DIR) then Crashed(NotADirectory(TEMP_DIR))
    else
      match FirstFailure(env, OUTPUT_DIR, false)
      case Some((step, e)) => Exited(1, step, e)
      case None =>
        if env.archiveWritable then Built(Pack(ExpectedTree(env, OUTPUT_DIR, false)))
        else Exited(1, Package, ArchiveWriteFailed)
  }

  /** `main()`: the purge outside the `try`, steps 1 to 8 inside it, and the cleanup in `finally`. */
  method Run(w: Workspace, env: Upstream) returns (result: RunResult)
    requires w.Valid()
    modifies w
    ensures w.Valid()
    ensures result == Outcome(env, old(w.files), old(w.dirs))
    ensures result == Crashed(NotADirectory(OUTPUT_DIR)) ==> w.files == old(w.files) && w.dirs == old(w.dirs)
    ensures result == Crashed(NotADirectory(TEMP_DIR)) ==>
              w.files == PruneFiles(old(w.files), OUTPUT_DIR) && w.dirs == PruneDirs(old(w.dirs), OUTPUT_DIR)
    ensures !result.Crashed? ==>
              !w.Exists(OUTPUT_DIR) && !w.Exists(TEMP_DIR) &&
              w.files == OutsideFiles(old(w.files), OUTPUT_DIR) && w.dirs == OutsideDirs(old(w.dirs), OUTPUT_DIR)
  {
    var purged := Purge(w, OUTPUT_DIR);
    if purged.Err? {
      return Crashed(purged.error);
    }
    var failure := Assemble(w, env, OUTPUT_DIR, false);
    if failure.Some? {
      result := Exited(1, failure.value.0, failure.value.1);
    } else if !env.archiveWritable {
      result := Exited(1, Package, ArchiveWriteFailed);
    } else {
      var entries := ZipDirectory(w.files, OUTPUT_DIR, Parent(OUTPUT_DIR));
      PackOnlyBelow(w.files, w.dirs, OUTPUT_DIR, Parent(OUTPUT_DIR));
      result := Built(entries);
    }
    Cleanup(w, OUTPUT_DIR);
  }

  /**
   * The archive of a successful run keeps the SD card layout: every name starts with SD_ROOT,
   * extracting it where SD_ROOT lived gives back the whole tree, and fusee.bin and the
   * settings file are where the console looks for them.
   */
  lemma PackLayout(d: Downloads)
    ensures forall e :: e in Pack(Layout(OUTPUT_DIR, d)) ==> e.FileEntry? && |e.name| >= 2 && e.name[0] == "SD_ROOT"
    ensures UniqueNames(Pack(Layout(OUTPUT_DIR, d))) && ExtractFiles(Pack(Layout(OUTPUT_DIR, d)), []) == Layout(OUTPUT_DIR, d)
    ensures FileEntry(OUTPUT_DIR + [FUSEE], d.fusee) in Pack(Layout(OUTPUT_DIR, d))
    ensures FileEntry(ConfigDir(OUTPUT_DIR) + [SETTINGS], CONFIG_BYTES) in Pack(Layout(OUTPUT_DIR, d))
  {
    assert Parent(OUTPUT_DIR) == [];
    PackedLayout(OUTPUT_DIR, d);
  }
}
