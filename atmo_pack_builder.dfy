/**
 * atmo_pack_builder.py: the same pipeline with the rate-limit guard in the release
 * lookup and `shutil.make_archive` for packaging. As written, step 1 calls a helper
 * the script never defines, so every run that gets past the lookup raises `NameError`
 * there; `RunAsIntended` is the run with that call replaced by the two helpers the
 * script does define.
 */
module AtmoPackBuilder {
  import opened Paths
  import opened Outcomes
  import opened Release
  import opened FileTree
  import opened Archive
  import opened Bundle

  const OUTPUT_DIR: Path := ["Atmo_Integration_Pack"]

  /** The name step 1 calls but the script never defines. */
  const MISSING_HELPER := "download_and_extract"

  /** How `main` as written ends. */
  function AsWrittenOutcome(env: Upstream, files: map<Path, Blob>, dirs: set<Path>): RunResult
  {
    if Blocks(files, dirs, OUTPUT_DIR) then Crashed(NotADirectory(OUTPUT_DIR))
    else if Blocks(files, dirs, TEMP_DIR) then Crashed(NotADirectory(TEMP_DIR))
    else
      match Lookup(env, SIGPATCHES, ZIP, true)
      case Err(e) => Exited(1, Sigpatches, e)
      case Ok(_) => Exited(1, Sigpatches, UndefinedName(MISSING_HELPER))
  }

  /** `main()` as written: the purge, the sigpatches lookup, the `NameError`, and the cleanup in `finally`. */
  method Run(w: Workspace, env: Upstream) returns (result: RunResult)
    requires w.Valid()
    modifies w
    ensures w.Valid()
    ensures result == AsWrittenOutcome(env, old(w.files), old(w.dirs))
    ensures result == Crashed(NotADirectory(OUTPUT_DIR)) ==> w.files == old(w.files) && w.dirs == old(w.dirs)
    ensures result == Crashed(NotADirectory(TEMP_DIR)) ==>
              w.files == PruneFiles(old(w.files), OUTPUT_DIR) && w.dirs == PruneDirs(old(w.dirs), OUTPUT_DIR)
    ensures !result.Crashed? ==>
              !w.Exists(OUTPUT_DIR) && !w.Exists(TEMP_DIR) &&
              w.files == OutsideFiles(old(w.files), OUTPUT_DIR) && w.dirs == OutsideDirs(old(w.dirs), OUTPUT_DIR)
  {
    var purged := Purge(w, OUTPUT_DIR);
    if purged.Err? {
      return Crashed(purged.error);
    }
    var sig := ResolveAsset(env, SIGPATCHES, ZIP, true);
    if sig.Err? {
      result := Exited(1, Sigpatches, sig.error);
    } else {
      result := Exited(1, Sigpatches, UndefinedName(MISSING_HELPER));
    }
    Cleanup(w, OUTPUT_DIR);
  }

  /** The entries `shutil.make_archive(..., root_dir=Atmo_Integration_Pack)` writes: files and directories, relative to the output directory. */
  function Pack(tree: map<Path, Blob>, dirs: set<Path>): set<Entry>
  {
    PackTree(tree, dirs, OUTPUT_DIR)
  }

  /** How `main` ends once step 1 downloads and extracts with `download_file` and `extract_zip_to`. */
  function IntendedOutcome(env: Upstream, files: map<Path, Blob>, dirs: set<Path>): RunResult
  {
    if Blocks(files, dirs, OUTPUT_DIR) then Crashed(NotADirectory(OUTPUT_DIR))
    else if Blocks(files, dirs, TEMP_DIR) then Crashed(NotADirectory(TEMP_DIR))
    else
      match FirstFailure(env, OUTPUT_DIR, true)
      case Some((step, e)) => Exited(1, step, e)
      case None =>
        if env.archiveWritable then Built(Pack(ExpectedTree(env, OUTPUT_DIR, true), ExpectedDirs(env, OUTPUT_DIR, true)))
        else Exited(1, Package, ArchiveWriteFailed)
  }

  /** `main()` with step 1 as evidently intended. */
  method RunAsIntended(w: Workspace, env: Upstream) returns (result: RunResult)
    requires w.Valid()
    modifies w
    ensures w.Valid()
    ensures result == IntendedOutcome(env, old(w.files), old(w.dirs))
    ensures result == Crashed(NotADirectory(OUTPUT_DIR)) ==> w.files == old(w.files) && w.dirs == old(w.dirs)
    ensures result == Crashed(NotADirectory(TEMP_DIR)) ==>
              w.files == PruneFiles(old(w.files), OUTPUT_DIR) && w.dirs == PruneDirs(old(w.dirs), OUTPUT_DIR)
    ensures !result.Crashed? ==>
              !w.Exists(OUTPUT_DIR) && !w.Exists(TEMP_DIR) &&
              w.files == OutsideFiles(old(w.files), OUTPUT_DIR) && w.dirs == OutsideDirs(old(w.dirs), OUTPUT_DIR)
  {
    var purged := Purge(w, OUTPUT_DIR);
    if purged.Err? {
      return Crashed(purged.error);
    }
    var failure := Assemble(w, env, OUTPUT_DIR, true);
    if failure.Some? {
      result := Exited(1, failure.value.0, failure.value.1);
    } else if !env.archiveWritable {
      result := Exited(1, Package, ArchiveWriteFailed);
    } else {
      var entries := PackTree(w.files, w.dirs, OUTPUT_DIR);
      PackOnlyBelow(w.files, w.dirs, OUTPUT_DIR, OUTPUT_DIR);
      result := Built(entries);
    }
    Cleanup(w, OUTPUT_DIR);
  }

  /** As written, no run builds the archive: each one that is not stopped by the purge exits with status 1 at step 1. */
  lemma AsWrittenNeverBuilds(env: Upstream, files: map<Path, Blob>, dirs: set<Path>)
    ensures !AsWrittenOutcome(env, files, dirs).Built?
    ensures !AsWrittenOutcome(env, files, dirs).Crashed? ==>
              AsWrittenOutcome(env, files, dirs).code == 1 && AsWrittenOutcome(env, files, dirs).at == Sigpatches
    ensures !AsWrittenOutcome(env, files, dirs).Crashed? && Lookup(env, SIGPATCHES, ZIP, true).Ok? ==>
              AsWrittenOutcome(env, files, dirs).error == UndefinedName(MISSING_HELPER)
  {
  }

  /** An upstream on which every step succeeds: one `.zip` and one `.nro` asset per release, and archives holding only fusee.bin. */
  const HEALTHY: Upstream := Upstream(
    _ => Some(Response(200, "", [Asset("a.zip", "u"), Asset("a.nro", "u")])),
    _ => Reply(200, [0]),
    b => Some(map[[FUSEE] := b]),
    true)

  /** On HEALTHY, the intended run builds the archive while the script as written exits at step 1 with `NameError`. */
  lemma NameErrorOnHealthyUpstream()
    ensures IntendedOutcome(HEALTHY, map[], {}).Built?
    ensures AsWrittenOutcome(HEALTHY, map[], {}) == Exited(1, Sigpatches, UndefinedName(MISSING_HELPER))
  {
    var resp := HEALTHY.feed(SIGPATCHES).value;
    assert !IsRateLimited(resp);
    assert Matches(resp.assets[0], ZIP);
    assert Matches(resp.assets[1], NRO) && !Matches(resp.assets[0], NRO);
  }

  /** The archive of a successful intended run: extracting it into the output directory gives back the whole tree, with fusee.bin and the settings file in place. */
  lemma PackLayout(d: Downloads, dirs: set<Path>)
    ensures UniqueNames(Pack(Layout(OUTPUT_DIR, d), dirs))
    ensures ExtractFiles(Pack(Layout(OUTPUT_DIR, d), dirs), OUTPUT_DIR) == Layout(OUTPUT_DIR, d)
    ensures FileEntry([FUSEE], d.fusee) in Pack(Layout(OUTPUT_DIR, d), dirs)
    ensures FileEntry((ConfigDir(OUTPUT_DIR) + [SETTINGS])[|OUTPUT_DIR|..], CONFIG_BYTES) in Pack(Layout(OUTPUT_DIR, d), dirs)
  {
    PackedTreeLayout(OUTPUT_DIR, d, dirs);
  }
}
