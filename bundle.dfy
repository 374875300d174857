/**
 * What both scripts share: the five upstream repositories, the output layout,
 * the purge at start, steps 1 to 7 of `main` (everything before packaging)
 * and the cleanup in `finally`. HTTP, ZIP decoding and the archive write are
 * the injected `Upstream` inputs.
 */
module Bundle {
  import opened Paths
  import opened Outcomes
  import opened Release
  import opened FileTree
  import opened Archive

  const TEMP_DIR: Path := ["temp"]

  const SIGPATCHES := Repo("ITotalJustice", "patches")
  const ATMOSPHERE := Repo("Atmosphere-NX", "Atmosphere")
  const TESLA_MENU := Repo("WerWolv", "Tesla-Menu")
  const EMUIIBO := Repo("XorTroll", "emuiibo")
  const DAYBREAK := Repo("mison20000", "daybreak")

  const ZIP := ".zip"
  const NRO := ".nro"
  const ATMO_ZIP: Name := "atmo.zip"
  const ATMO_DIR: Name := "atmo"
  const FUSEE: Name := "fusee.bin"
  const SETTINGS: Name := "system_settings.ini"
  const CONFIG_TEXT: string := "[tesla]\nenabled = u8\"1\"\n"

  /** What `write_text(..., encoding="utf-8")` stores for CONFIG_TEXT. */
  const CONFIG_BYTES: Blob := [91, 116, 101, 115, 108, 97, 93, 10, 101, 110, 97, 98, 108, 101, 100, 32, 61, 32, 117, 56, 34, 49, 34, 10]

  /** CONFIG_TEXT is ASCII, so its UTF-8 encoding has one byte per character, equal to the character's code. */
  lemma ConfigBytesEncodeText()
    ensures |CONFIG_BYTES| == |CONFIG_TEXT|
    ensures forall i :: 0 <= i < |CONFIG_TEXT| ==> CONFIG_TEXT[i] as int < 128 && CONFIG_BYTES[i] == CONFIG_TEXT[i] as int
  {
  }

  /** The answer to a request for an asset's bytes. */
  datatype Fetch = Reply(status: int, body: Blob) | Unreachable

  /** Everything the scripts learn from outside the working directory. */
  datatype Upstream = Upstream(
    feed: Repo -> Option<Response>,   // the latest-release query per repository; None when the request fails
    fetch: string -> Fetch,           // `requests.get` of a download URL
    unzip: Blob -> Option<Members>,   // what `zipfile` reads from a blob
    archiveWritable: bool)            // whether writing the final ZIP succeeds

  /** The steps of `main`, in the order they run. */
  datatype Step = Sigpatches | Fusee | PluginDirs | TeslaMenu | Emuiibo | Daybreak | Config | Package

  /** How one run of `main` ends: with the archive, with `sys.exit(1)` after a failing step, or with an uncaught exception during the purge. */
  datatype RunResult = Built(archive: set<Entry>) | Exited(code: int, at: Step, error: Error) | Crashed(error: Error)

  function TeslaApps(out: Path): Path { out + ["tesla", "apps"] }
  function EmuiiboData(out: Path): Path { out + ["emuiibo"] }
  function DaybreakDir(out: Path): Path { out + ["switch", "Daybreak"] }
  function ConfigDir(out: Path): Path { out + ["atmosphere", "config"] }

  /** An output directory: one top-level name other than the scratch directory. */
  predicate IsOutputDir(out: Path)
  {
    |out| == 1 && out != TEMP_DIR
  }

  /** What survives a run: everything outside the output and the scratch trees. */
  function OutsideFiles(files: map<Path, Blob>, out: Path): map<Path, Blob>
  {
    PruneFiles(PruneFiles(files, out), TEMP_DIR)
  }

  function OutsideDirs(dirs: set<Path>, out: Path): set<Path>
  {
    PruneDirs(PruneDirs(dirs, out), TEMP_DIR)
  }

  /** p exists as a plain file, so `shutil.rmtree(p)` raises. */
  predicate Blocks(files: map<Path, Blob>, dirs: set<Path>, p: Path)
  {
    p in files && p !in dirs
  }

  // ---------------------------------------------------------------------------
  // What each step gets from upstream

  /** `get_latest_release_asset`, with the rate-limit guard when `guarded`. */
  function Lookup(env: Upstream, repo: Repo, suffix: string, guarded: bool): Result<Asset>
  {
    LatestAsset(env.feed(repo), repo, suffix, guarded)
  }

  /** The bytes streamed from an asset's URL; `checked` when `raise_for_status` comes first, as in `download_file`. */
  function Download(env: Upstream, a: Asset, checked: bool): Result<Blob>
  {
    match env.fetch(a.downloadUrl)
    case Unreachable => Err(ConnectionFailed(a.downloadUrl))
    case Reply(status, body) => if checked && IsHttpError(status) then Err(HttpError(status)) else Ok(body)
  }

  /** Step 1's input: the members of the sigpatches archive, saved as temp/<asset name>. */
  function SigpatchesStage(env: Upstream, guarded: bool): Result<Members>
  {
    var a :- Lookup(env, SIGPATCHES, ZIP, guarded);
    var data :- Download(env, a, true);
    match env.unzip(data)
    case None => Err(BadZipFile(TEMP_DIR + [a.name]))
    case Some(m) => Ok(m)
  }

  /** Step 2's first input: the members of the Atmosphère archive, saved as temp/atmo.zip. */
  function AtmosphereStage(env: Upstream, guarded: bool): Result<Members>
  {
    var a :- Lookup(env, ATMOSPHERE, ZIP, guarded);
    // step 2 streams the response into atmo.zip without `raise_for_status`
    var data :- Download(env, a, false);
    match env.unzip(data)
    case None => Err(BadZipFile(TEMP_DIR + [ATMO_ZIP]))
    case Some(m) => Ok(m)
  }

  /** Step 2's input: fusee.bin at the top of the Atmosphère archive, once unpacked in temp/atmo. */
  function FuseeStage(env: Upstream, guarded: bool): Result<Blob>
  {
    var m :- AtmosphereStage(env, guarded);
    if [FUSEE] in m then Ok(m[[FUSEE]]) else Err(FileNotFound(TEMP_DIR + [ATMO_DIR, FUSEE]))
  }

  /** Steps 4 to 6: the first `.nro` asset of a plugin's release and its bytes. */
  function PluginStage(env: Upstream, guarded: bool, repo: Repo): Result<(Asset, Blob)>
  {
    var a :- Lookup(env, repo, NRO, guarded);
    var data :- Download(env, a, true);
    Ok((a, data))
  }

  /** The first of steps 1 to 7 that fails, and what it raises; the directory and config steps cannot fail. */
  function FirstFailure(env: Upstream, out: Path, guarded: bool): Option<(Step, Error)>
  {
    var sig := SigpatchesStage(env, guarded);
    var fusee := FuseeStage(env, guarded);
    if sig.Err? then Some((Sigpatches, sig.error))
    else if fusee.Err? then Some((Fusee, fusee.error))
    // an empty sigpatches archive creates no output directory to copy fusee.bin into
    else if sig.value == map[] then Some((Fusee, FileNotFound(out + [FUSEE])))
    else PluginFailure(env, guarded)
  }

  /** The first of steps 4 to 6 that fails. */
  function PluginFailure(env: Upstream, guarded: bool): Option<(Step, Error)>
  {
    var tesla := PluginStage(env, guarded, TESLA_MENU);
    var emuiibo := PluginStage(env, guarded, EMUIIBO);
    var dbi := PluginStage(env, guarded, DAYBREAK);
    if tesla.Err? then Some((TeslaMenu, tesla.error))
    else if emuiibo.Err? then Some((Emuiibo, emuiibo.error))
    else if dbi.Err? then Some((Daybreak, dbi.error))
    else None
  }

  /** A release query that cannot be made ends the run at the step that asks it: step 1 first of all, and step 4 once steps 1 and 2 have passed. */
  lemma UnreachableFeedStopsStep(env: Upstream, out: Path, guarded: bool)
    ensures env.feed(SIGPATCHES).None? ==>
              FirstFailure(env, out, guarded) == Some((Sigpatches, ConnectionFailed(ApiUrl(SIGPATCHES))))
    ensures env.feed(TESLA_MENU).None? ==>
              PluginFailure(env, guarded) == Some((TeslaMenu, ConnectionFailed(ApiUrl(TESLA_MENU))))
  {
  }

  /** What steps 1, 2, 4, 5 and 6 obtain from upstream when none of them fails. */
  datatype Downloads = Downloads(
    sig: Members, fusee: Blob,
    tesla: Asset, teslaData: Blob, emuiibo: Asset, emuiiboData: Blob, dbi: Asset, dbiData: Blob)

  function Fetched(env: Upstream, out: Path, guarded: bool): Downloads
    requires FirstFailure(env, out, guarded).None?
  {
    var (tesla, teslaData) := PluginStage(env, guarded, TESLA_MENU).value;
    var (emuiibo, emuiiboData) := PluginStage(env, guarded, EMUIIBO).value;
    var (dbi, dbiData) := PluginStage(env, guarded, DAYBREAK).value;
    Downloads(SigpatchesStage(env, guarded).value, FuseeStage(env, guarded).value,
              tesla, teslaData, emuiibo, emuiiboData, dbi, dbiData)
  }

  /** The files below out after steps 1 to 7, in the order they are written. */
  function Layout(out: Path, d: Downloads): map<Path, Blob>
  {
    Graft(out, d.sig)
      [out + [FUSEE] := d.fusee]
      [TeslaApps(out) + [d.tesla.name] := d.teslaData]
      [TeslaApps(out) + [d.emuiibo.name] := d.emuiiboData]
      [DaybreakDir(out) + [d.dbi.name] := d.dbiData]
      [ConfigDir(out) + [SETTINGS] := CONFIG_BYTES]
  }

  /** The files below the output directory once steps 1 to 7 have succeeded. */
  function ExpectedTree(env: Upstream, out: Path, guarded: bool): map<Path, Blob>
    requires FirstFailure(env, out, guarded).None?
  {
    Layout(out, Fetched(env, out, guarded))
  }

  /** tree after steps 4 to 6: the three `.nro` files, each under its asset name. */
  function NroFiles(env: Upstream, out: Path, guarded: bool, tree: map<Path, Blob>): map<Path, Blob>
    requires PluginFailure(env, guarded).None?
  {
    var (tesla, teslaData) := PluginStage(env, guarded, TESLA_MENU).value;
    var (emuiibo, emuiiboData) := PluginStage(env, guarded, EMUIIBO).value;
    var (dbi, dbiData) := PluginStage(env, guarded, DAYBREAK).value;
    tree
      [TeslaApps(out) + [tesla.name] := teslaData]
      [TeslaApps(out) + [emuiibo.name] := emuiiboData]
      [DaybreakDir(out) + [dbi.name] := dbiData]
  }

  /** The directories below the output directory once steps 1 to 7 have succeeded. */
  function ExpectedDirs(env: Upstream, out: Path, guarded: bool): set<Path>
    requires FirstFailure(env, out, guarded).None?
  {
    DirsBelow(GraftDirs(out, SigpatchesStage(env, guarded).value) + PluginDirSet(out), out)
  }

  function PluginDirSet(out: Path): set<Path>
  {
    Chain(TeslaApps(out)) + Chain(EmuiiboData(out)) + Chain(DaybreakDir(out)) + Chain(ConfigDir(out))
  }

  // ---------------------------------------------------------------------------
  // Facts about the parts of the working directory a run touches

  /** The state right after the purge: scratch is empty and the output directory does not exist. */
  ghost predicate Fresh(w: Workspace, out: Path)
    reads w
  {
    Ready(w, out) && out !in w.dirs && FilesBelow(w.files, TEMP_DIR) == map[] && DirsBelow(w.dirs, TEMP_DIR) == {}
  }

  /** The state every step starts and ends in: scratch exists as a directory, neither tree root is a plain file. */
  ghost predicate Ready(w: Workspace, out: Path)
    reads w
  {
    w.Valid() && IsOutputDir(out) && TEMP_DIR in w.dirs && TEMP_DIR !in w.files && out !in w.files
  }

  lemma PrefixCases(p: Path, q: Path)
    ensures p <= q ==> p == q || p < q
  {
    if p <= q && |p| == |q| {
      assert p == q[..|p|];
    }
  }

  lemma NothingBelowMissing(w: Workspace, p: Path)
    requires w.Valid() && |p| > 0 && p !in w.dirs
    ensures FilesBelow(w.files, p) == map[] && DirsBelow(w.dirs, p) == {}
    ensures PruneDirs(w.dirs, p) == w.dirs
    ensures p !in w.files ==> PruneFiles(w.files, p) == w.files
  {
    forall d | d in w.dirs ensures !(p <= d) {
      PrefixCases(p, d);
      if |p| < |d| {
        assert d[..|p|] in w.dirs;
        assert d[..|p|] != p;
      }
    }
    forall q | q in w.files ensures !(p < q) {
      if |p| < |q| {
        assert q[..|p|] in w.dirs;
      }
    }
    if p !in w.files {
      forall q | q in w.files ensures !(p <= q) {
        PrefixCases(p, q);
      }
    }
  }

  lemma OutsideUpdate(files: map<Path, Blob>, out: Path, p: Path, v: Blob)
    requires out <= p || TEMP_DIR <= p
    ensures OutsideFiles(files[p := v], out) == OutsideFiles(files, out)
  {
  }

  lemma OutsideUnion(files: map<Path, Blob>, extra: map<Path, Blob>, out: Path)
    requires forall q :: q in extra ==> out <= q || TEMP_DIR <= q
    ensures OutsideFiles(files + extra, out) == OutsideFiles(files, out)
  {
  }

  lemma OutsideDirsUnion(dirs: set<Path>, extra: set<Path>, out: Path)
    requires forall d :: d in extra ==> out <= d || TEMP_DIR <= d
    ensures OutsideDirs(dirs + extra, out) == OutsideDirs(dirs, out)
  {
  }

  lemma BelowUpdate(files: map<Path, Blob>, root: Path, p: Path, v: Blob)
    ensures FilesBelow(files[p := v], root) ==
            if root < p then FilesBelow(files, root)[p := v] else FilesBelow(files, root)
  {
  }

  lemma BelowUnion(files: map<Path, Blob>, extra: map<Path, Blob>, root: Path)
    ensures FilesBelow(files + extra, root) == FilesBelow(files, root) + FilesBelow(extra, root)
  {
  }

  /** Everything `extractall(dest)` creates lies in the top-level directory of dest. */
  lemma GraftWithin(dest: Path, m: Members)
    requires |dest| > 0
    ensures forall q :: q in Graft(dest, m) ==> dest < q
    ensures forall d :: d in GraftDirs(dest, m) ==> dest[..1] <= d
    ensures dest[..1] in GraftDirs(dest, m) <==> m != map[]
  {
    forall q | q in Graft(dest, m) ensures dest < q {
      var p :| p in m && q == dest + p;
    }
    forall d | d in GraftDirs(dest, m) ensures dest[..1] <= d {
      var p, k :| p in m && 0 < k < |dest| + |p| && d == (dest + p)[..k];
    }
    if m != map[] {
      var p :| p in m;
      assert (dest + p)[..1] == dest[..1];
    }
  }

  /** Extracting into an output directory that does not exist yet: its tree is exactly what the archive holds. */
  lemma ExtractedIntoFreshOut(files: map<Path, Blob>, dirs: set<Path>, out: Path, m: Members)
    requires |out| == 1 && out !in dirs
    requires FilesBelow(files, out) == map[] && DirsBelow(dirs, out) == {}
    ensures FilesBelow(files + Graft(out, m), out) == Graft(out, m)
    ensures DirsBelow(dirs + GraftDirs(out, m), out) == DirsBelow(GraftDirs(out, m), out)
    ensures out in dirs + GraftDirs(out, m) <==> m != map[]
  {
    GraftWithin(out, m);
    assert out[..1] == out;
    BelowUnion(files, Graft(out, m), out);
    assert DirsBelow(dirs + GraftDirs(out, m), out) == DirsBelow(dirs, out) + DirsBelow(GraftDirs(out, m), out);
  }

  /** Extracting into scratch leaves the output tree alone. */
  lemma ExtractedIntoScratch(files: map<Path, Blob>, dirs: set<Path>, out: Path, m: Members)
    requires IsOutputDir(out)
    ensures FilesBelow(files + Graft(TEMP_DIR + [ATMO_DIR], m), out) == FilesBelow(files, out)
    ensures DirsBelow(dirs + GraftDirs(TEMP_DIR + [ATMO_DIR], m), out) == DirsBelow(dirs, out)
    ensures out in dirs + GraftDirs(TEMP_DIR + [ATMO_DIR], m) <==> out in dirs
  {
    var scratch := TEMP_DIR + [ATMO_DIR];
    GraftWithin(scratch, m);
    assert scratch[..1] == TEMP_DIR;
    BelowUnion(files, Graft(scratch, m), out);
    assert FilesBelow(Graft(scratch, m), out) == map[] by {
      forall q | q in Graft(scratch, m) ensures !(out < q) {
        assert q[..1] == TEMP_DIR;
      }
    }
    forall d | d in GraftDirs(scratch, m) ensures !(out <= d) {
      assert d[..1] == TEMP_DIR;
    }
  }

  /** Where `extractall(dest)` puts a member p. */
  lemma GraftLookup(dest: Path, m: Members, p: RelPath)
    ensures dest + p in Graft(dest, m) <==> p in m
    ensures p in m ==> Graft(dest, m)[dest + p] == m[p]
  {
    if dest + p in Graft(dest, m) {
      var p' :| p' in m && dest + p == dest + p';
      assert p == (dest + p)[|dest|..];
      assert p' == (dest + p')[|dest|..];
    }
  }

  /** After extracting into a fresh temp/atmo, temp/atmo/fusee.bin is the archive's top-level fusee.bin. */
  lemma FuseeAfterExtract(files: map<Path, Blob>, m: Members)
    requires TEMP_DIR + [ATMO_DIR, FUSEE] !in files
    ensures TEMP_DIR + [ATMO_DIR, FUSEE] in files + Graft(TEMP_DIR + [ATMO_DIR], m) <==> [FUSEE] in m
    ensures [FUSEE] in m ==> (files + Graft(TEMP_DIR + [ATMO_DIR], m))[TEMP_DIR + [ATMO_DIR, FUSEE]] == m[[FUSEE]]
  {
    GraftLookup(TEMP_DIR + [ATMO_DIR], m, [FUSEE]);
    assert TEMP_DIR + [ATMO_DIR] + [FUSEE] == TEMP_DIR + [ATMO_DIR, FUSEE];
  }

  lemma DirsBelowUnion(a: set<Path>, b: set<Path>, root: Path)
    ensures DirsBelow(a + b, root) == DirsBelow(a, root) + DirsBelow(b, root)
  {
  }

  /** What the purge leaves: no output directory and an empty scratch directory. */
  lemma PurgedIsFresh(files: map<Path, Blob>, dirs: set<Path>, out: Path)
    requires IsOutputDir(out)
    ensures out !in OutsideDirs(dirs, out) + {TEMP_DIR}
    ensures FilesBelow(OutsideFiles(files, out), TEMP_DIR) == map[]
    ensures DirsBelow(OutsideDirs(dirs, out) + {TEMP_DIR}, TEMP_DIR) == {}
  {
  }

  /** The five files steps 2 to 7 write below out, whatever the sigpatches archive held at those paths. */
  function Written(out: Path, d: Downloads): set<Path>
  {
    {out + [FUSEE], TeslaApps(out) + [d.tesla.name], TeslaApps(out) + [d.emuiibo.name],
     DaybreakDir(out) + [d.dbi.name], ConfigDir(out) + [SETTINGS]}
  }

  lemma StrictlyBelow(out: Path, rest: Path)
    requires |rest| > 0
    ensures out < out + rest
  {
    assert (out + rest)[..|out|] == out;
  }

  /** After a successful run the output tree holds what the sigpatches archive held and the five written files, nothing else, all below out. */
  lemma LayoutKeys(out: Path, d: Downloads)
    requires |out| == 1
    ensures forall q :: q in Layout(out, d) <==> q in Graft(out, d.sig) || q in Written(out, d)
    ensures forall q :: q in Layout(out, d) ==> out < q
  {
    GraftWithin(out, d.sig);
    StrictlyBelow(out, [FUSEE]);
    StrictlyBelow(out, ["tesla", "apps", d.tesla.name]);
    StrictlyBelow(out, ["tesla", "apps", d.emuiibo.name]);
    StrictlyBelow(out, ["switch", "Daybreak", d.dbi.name]);
    StrictlyBelow(out, ["atmosphere", "config", SETTINGS]);
    assert TeslaApps(out) + [d.tesla.name] == out + ["tesla", "apps", d.tesla.name];
    assert TeslaApps(out) + [d.emuiibo.name] == out + ["tesla", "apps", d.emuiibo.name];
    assert DaybreakDir(out) + [d.dbi.name] == out + ["switch", "Daybreak", d.dbi.name];
    assert ConfigDir(out) + [SETTINGS] == out + ["atmosphere", "config", SETTINGS];
  }

  /**
   * The written files: the official fusee.bin at the root of out, the settings file that enables
   * Tesla, the Daybreak `.nro`, and both overlay `.nro` files in tesla/apps (emuiibo's wins when it
   * has Tesla Menu's name).
   */
  lemma LayoutWrittenFiles(out: Path, d: Downloads)
    requires |out| == 1
    ensures Layout(out, d)[out + [FUSEE]] == d.fusee
    ensures Layout(out, d)[ConfigDir(out) + [SETTINGS]] == CONFIG_BYTES
    ensures Layout(out, d)[DaybreakDir(out) + [d.dbi.name]] == d.dbiData
    ensures Layout(out, d)[TeslaApps(out) + [d.emuiibo.name]] == d.emuiiboData
    ensures d.tesla.name != d.emuiibo.name ==> Layout(out, d)[TeslaApps(out) + [d.tesla.name]] == d.teslaData
  {
    var config := ConfigDir(out) + [SETTINGS];
    var dbiPath := DaybreakDir(out) + [d.dbi.name];
    var teslaPath := TeslaApps(out) + [d.tesla.name];
    var emuiiboPath := TeslaApps(out) + [d.emuiibo.name];
    assert dbiPath[1] == "switch" && config[1] == "atmosphere" && teslaPath[1] == "tesla" && emuiiboPath[1] == "tesla";
    if d.tesla.name != d.emuiibo.name {
      assert teslaPath[3] != emuiiboPath[3];
    }
  }

  /** Every member of the sigpatches archive that no later step overwrites keeps its content at the same place below out. */
  lemma LayoutKeepsSigpatches(out: Path, d: Downloads)
    requires |out| == 1
    ensures forall p :: p in d.sig && out + p !in Written(out, d) ==> out + p in Layout(out, d) && Layout(out, d)[out + p] == d.sig[p]
  {
    forall p | p in d.sig && out + p !in Written(out, d) ensures out + p in Layout(out, d) && Layout(out, d)[out + p] == d.sig[p] {
      GraftLookup(out, d.sig, p);
    }
  }

  /** The layout packed with names relative to the working directory, as build_pack.py names them. */
  lemma PackedLayout(out: Path, d: Downloads)
    requires |out| == 1
    ensures forall e :: e in PackFiles(Layout(out, d), out, []) ==> e.FileEntry? && |e.name| >= 2 && e.name[0] == out[0]
    ensures UniqueNames(PackFiles(Layout(out, d), out, [])) && ExtractFiles(PackFiles(Layout(out, d), out, []), []) == Layout(out, d)
    ensures FileEntry(out + [FUSEE], d.fusee) in PackFiles(Layout(out, d), out, [])
    ensures FileEntry(ConfigDir(out) + [SETTINGS], CONFIG_BYTES) in PackFiles(Layout(out, d), out, [])
  {
    LayoutKeys(out, d);
    LayoutWrittenFiles(out, d);
    PackedFromTop(Layout(out, d), out);
  }

  /** The layout packed as `shutil.make_archive` packs it, with names relative to out itself. */
  lemma PackedTreeLayout(out: Path, d: Downloads, dirs: set<Path>)
    requires |out| == 1
    ensures UniqueNames(PackTree(Layout(out, d), dirs, out))
    ensures ExtractFiles(PackTree(Layout(out, d), dirs, out), out) == Layout(out, d)
    ensures FileEntry([FUSEE], d.fusee) in PackTree(Layout(out, d), dirs, out)
    ensures FileEntry((ConfigDir(out) + [SETTINGS])[|out|..], CONFIG_BYTES) in PackTree(Layout(out, d), dirs, out)
  {
    LayoutKeys(out, d);
    LayoutWrittenFiles(out, d);
    PackedTreeFromRoot(Layout(out, d), dirs, out);
    assert (out + [FUSEE])[|out|..] == [FUSEE];
  }

  // ---------------------------------------------------------------------------
  // Purge and cleanup

  /** The purge before the `try`: remove the output and scratch directories when they exist, then create scratch. */
  method Purge(w: Workspace, out: Path) returns (r: Result<()>)
    requires w.Valid() && IsOutputDir(out)
    modifies w
    ensures w.Valid()
    ensures r.Ok? <==> !old(Blocks(w.files, w.dirs, out)) && !old(Blocks(w.files, w.dirs, TEMP_DIR))
    ensures old(Blocks(w.files, w.dirs, out)) ==>
              r == Err(NotADirectory(out)) && w.files == old(w.files) && w.dirs == old(w.dirs)
    ensures !old(Blocks(w.files, w.dirs, out)) && old(Blocks(w.files, w.dirs, TEMP_DIR)) ==>
              r == Err(NotADirectory(TEMP_DIR)) &&
              w.files == PruneFiles(old(w.files), out) && w.dirs == PruneDirs(old(w.dirs), out)
    ensures r.Ok? ==>
              Fresh(w, out) && w.files == OutsideFiles(old(w.files), out) &&
              w.dirs == OutsideDirs(old(w.dirs), out) + {TEMP_DIR}
  {
    if out !in w.dirs {
      NothingBelowMissing(w, out);
    }
    if w.Exists(out) {
      r := w.RemoveTree(out);
      if r.Err? {
        return;
      }
    }
    assert w.files == PruneFiles(old(w.files), out) && w.dirs == PruneDirs(old(w.dirs), out);
    if TEMP_DIR !in w.dirs {
      NothingBelowMissing(w, TEMP_DIR);
    }
    if w.Exists(TEMP_DIR) {
      r := w.RemoveTree(TEMP_DIR);
      if r.Err? {
        return;
      }
    }
    assert w.files == OutsideFiles(old(w.files), out) && w.dirs == OutsideDirs(old(w.dirs), out);
    var made := w.MakeDir(TEMP_DIR);
    assert made.Ok?;
    PurgedIsFresh(old(w.files), old(w.dirs), out);
    r := Ok(());
  }

  /** The `finally` block: remove the scratch and the output directories. */
  method Cleanup(w: Workspace, out: Path)
    requires Ready(w, out)
    modifies w
    ensures w.Valid()
    ensures w.files == OutsideFiles(old(w.files), out) && w.dirs == OutsideDirs(old(w.dirs), out)
  {
    if w.Exists(TEMP_DIR) {
      var r := w.RemoveTree(TEMP_DIR);
    }
    if out !in w.dirs {
      NothingBelowMissing(w, out);
    }
    if w.Exists(out) {
      var r := w.RemoveTree(out);
    }
    assert w.files == OutsideFiles(old(w.files), out);
  }

  /** Every directory `mkdir(parents=True)` creates for a path below out lies in out's tree. */
  lemma ChainWithin(out: Path, p: Path)
    requires |out| == 1 && out <= p
    ensures forall d :: d in Chain(p) ==> out <= d
  {
  }

  // ---------------------------------------------------------------------------
  // Steps 1 to 7

  /** `get_latest_release_asset(owner, repo, suffix)`. */
  method ResolveAsset(env: Upstream, repo: Repo, suffix: string, guarded: bool) returns (r: Result<Asset>)
    ensures r == Lookup(env, repo, suffix, guarded)
  {
    var answer := env.feed(repo);
    if answer.None? {
      return Err(ConnectionFailed(ApiUrl(repo)));
    }
    if guarded {
      r := GetLatestReleaseAssetGuarded(answer.value, suffix);
    } else {
      r := GetLatestReleaseAsset(answer.value, suffix);
    }
  }

  /** `download_file(url, dest)` when checked, the inline download of step 2 otherwise: request the bytes, then write them to dest. */
  method DownloadFile(w: Workspace, env: Upstream, a: Asset, dest: Path, checked: bool) returns (r: Result<Blob>)
    requires w.Valid() && |dest| > 0
    modifies w
    ensures w.Valid() && w.dirs == old(w.dirs)
    ensures Download(env, a, checked).Err? ==> r == Download(env, a, checked) && w.files == old(w.files)
    ensures Download(env, a, checked).Ok? ==>
              (r.Ok? <==> old(w.ParentIsDir(dest))) &&
              (r.Ok? ==> r == Download(env, a, checked) && w.files == old(w.files)[dest := r.value]) &&
              (r.Err? ==> r.error == FileNotFound(dest) && w.files == old(w.files))
  {
    match env.fetch(a.downloadUrl) {
      case Unreachable =>
        return Err(ConnectionFailed(a.downloadUrl));
      case Reply(status, body) =>
        if checked && IsHttpError(status) {
          return Err(HttpError(status));
        }
        var written := w.WriteFile(dest, body);
        if written.Err? {
          return Err(written.error);
        }
        return Ok(body);
    }
  }

  /** Saving an asset in scratch: scratch exists, so only the request itself can fail. */
  method SaveToScratch(w: Workspace, env: Upstream, out: Path, a: Asset, zipPath: Path, checked: bool) returns (r: Result<Blob>)
    requires Ready(w, out) && |zipPath| == 2 && zipPath[..1] == TEMP_DIR
    modifies w
    ensures Ready(w, out) && w.dirs == old(w.dirs)
    ensures r == Download(env, a, checked)
    ensures r.Ok? ==> w.files == old(w.files)[zipPath := r.value]
    ensures r.Err? ==> w.files == old(w.files)
    ensures OutsideFiles(w.files, out) == old(OutsideFiles(w.files, out))
    ensures FilesBelow(w.files, out) == old(FilesBelow(w.files, out))
  {
    assert Parent(zipPath) == TEMP_DIR;
    r := DownloadFile(w, env, a, zipPath, checked);
    if r.Ok? {
      assert TEMP_DIR <= zipPath;
      OutsideUpdate(old(w.files), out, zipPath, r.value);
      BelowUpdate(old(w.files), out, zipPath, r.value);
    }
  }

  /** `ZipFile(zipPath).extractall(dest)`, where dest is the output directory or lies in scratch. */
  method ExtractArchive(w: Workspace, out: Path, zipPath: Path, dest: Path, unzip: Blob -> Option<Members>) returns (r: Result<Members>)
    requires Ready(w, out) && zipPath in w.files && (dest == out || TEMP_DIR < dest)
    modifies w
    ensures Ready(w, out)
    ensures r == match unzip(old(w.files)[zipPath]) case None => Err(BadZipFile(zipPath)) case Some(m) => Ok(m)
    ensures r.Ok? ==> w.files == old(w.files) + Graft(dest, r.value) && w.dirs == old(w.dirs) + GraftDirs(dest, r.value)
    ensures r.Err? ==> w.files == old(w.files) && w.dirs == old(w.dirs)
    ensures OutsideFiles(w.files, out) == old(OutsideFiles(w.files, out))
    ensures OutsideDirs(w.dirs, out) == old(OutsideDirs(w.dirs, out))
  {
    var blob := w.files[zipPath];
    var extracted := w.ExtractZip(zipPath, dest, unzip);
    if extracted.Err? {
      return Err(extracted.error);
    }
    var m := unzip(blob).value;
    GraftWithin(dest, m);
    forall q | q in Graft(dest, m) ensures out <= q || TEMP_DIR <= q {
      assert dest < q;
      if dest != out {
        assert q[..1] == dest[..1];
      }
    }
    forall d | d in GraftDirs(dest, m) ensures out <= d || TEMP_DIR <= d {
      assert dest[..1] <= d;
    }
    OutsideUnion(old(w.files), Graft(dest, m), out);
    OutsideDirsUnion(old(w.dirs), GraftDirs(dest, m), out);
    r := Ok(m);
  }

  /** Step 1: download the sigpatches archive into scratch and extract it straight into the output directory. */
  method InstallSigpatches(w: Workspace, env: Upstream, out: Path, guarded: bool) returns (r: Result<Members>)
    requires Ready(w, out) && out !in w.dirs
    requires FilesBelow(w.files, TEMP_DIR) == map[] && DirsBelow(w.dirs, TEMP_DIR) == {}
    modifies w
    ensures Ready(w, out) && !w.Exists(TEMP_DIR + [ATMO_DIR])
    ensures OutsideFiles(w.files, out) == old(OutsideFiles(w.files, out))
    ensures OutsideDirs(w.dirs, out) == old(OutsideDirs(w.dirs, out))
    ensures r == SigpatchesStage(env, guarded)
    ensures r.Ok? ==>
              FilesBelow(w.files, out) == Graft(out, r.value) &&
              DirsBelow(w.dirs, out) == DirsBelow(GraftDirs(out, r.value), out) &&
              (out in w.dirs <==> r.value != map[])
  {
    NothingBelowMissing(w, out);
    var zipPath := FetchSigpatches(w, env, out, guarded);
    if zipPath.Err? {
      return Err(zipPath.error);
    }
    ghost var files1, dirs1 := w.files, w.dirs;
    r := ExtractArchive(w, out, zipPath.value, out, env.unzip);
    if r.Ok? {
      ExtractedIntoFreshOut(files1, dirs1, out, r.value);
      assert !(out <= TEMP_DIR + [ATMO_DIR]);
    }
  }

  /** The download half of step 1: the sigpatches archive, saved in scratch under the asset's own name. */
  method FetchSigpatches(w: Workspace, env: Upstream, out: Path, guarded: bool) returns (r: Result<Path>)
    requires Ready(w, out)
    requires FilesBelow(w.files, TEMP_DIR) == map[] && DirsBelow(w.dirs, TEMP_DIR) == {}
    modifies w
    ensures Ready(w, out) && !w.Exists(TEMP_DIR + [ATMO_DIR]) && w.dirs == old(w.dirs)
    ensures OutsideFiles(w.files, out) == old(OutsideFiles(w.files, out))
    ensures FilesBelow(w.files, out) == old(FilesBelow(w.files, out))
    ensures r.Err? ==> SigpatchesStage(env, guarded) == Err(r.error)
    ensures r.Ok? ==>
              r.value in w.files &&
              SigpatchesStage(env, guarded) ==
                match env.unzip(w.files[r.value]) case None => Err(BadZipFile(r.value)) case Some(m) => Ok(m)
  {
    assert TEMP_DIR < TEMP_DIR + [ATMO_DIR];
    assert TEMP_DIR + [ATMO_DIR] !in DirsBelow(w.dirs, TEMP_DIR);
    assert TEMP_DIR + [ATMO_DIR] !in FilesBelow(w.files, TEMP_DIR);
    var sig := ResolveAsset(env, SIGPATCHES, ZIP, guarded);
    if sig.Err? {
      return Err(sig.error);
    }
    var zipPath := TEMP_DIR + [sig.value.name];
    var data := SaveToScratch(w, env, out, sig.value, zipPath, true);
    if data.Err? {
      return Err(data.error);
    }
    assert zipPath != TEMP_DIR + [ATMO_DIR] by {
      assert sig.value.name != ATMO_DIR;
    }
    r := Ok(zipPath);
  }

  /** The first half of step 2: download the Atmosphère archive into scratch and unpack it in temp/atmo. */
  method UnpackAtmosphere(w: Workspace, env: Upstream, out: Path, guarded: bool) returns (r: Result<Members>)
    requires Ready(w, out) && !w.Exists(TEMP_DIR + [ATMO_DIR])
    modifies w
    ensures Ready(w, out)
    ensures OutsideFiles(w.files, out) == old(OutsideFiles(w.files, out))
    ensures OutsideDirs(w.dirs, out) == old(OutsideDirs(w.dirs, out))
    ensures FilesBelow(w.files, out) == old(FilesBelow(w.files, out))
    ensures DirsBelow(w.dirs, out) == old(DirsBelow(w.dirs, out))
    ensures out in w.dirs <==> old(out in w.dirs)
    ensures r == AtmosphereStage(env, guarded)
    ensures r.Ok? ==>
              (TEMP_DIR + [ATMO_DIR, FUSEE] in w.files <==> [FUSEE] in r.value) &&
              ([FUSEE] in r.value ==> w.files[TEMP_DIR + [ATMO_DIR, FUSEE]] == r.value[[FUSEE]])
  {
    var atmo := ResolveAsset(env, ATMOSPHERE, ZIP, guarded);
    if atmo.Err? {
      return Err(atmo.error);
    }
    var zipPath := TEMP_DIR + [ATMO_ZIP];
    var data := SaveToScratch(w, env, out, atmo.value, zipPath, false);
    if data.Err? {
      return Err(data.error);
    }
    r := UnpackInScratch(w, out, zipPath, env.unzip);
  }

  /** `mkdir` of temp/atmo, then `extractall` of the archive at zipPath into it. */
  method UnpackInScratch(w: Workspace, out: Path, zipPath: Path, unzip: Blob -> Option<Members>) returns (r: Result<Members>)
    requires Ready(w, out) && !w.Exists(TEMP_DIR + [ATMO_DIR]) && zipPath in w.files
    modifies w
    ensures Ready(w, out)
    ensures OutsideFiles(w.files, out) == old(OutsideFiles(w.files, out))
    ensures OutsideDirs(w.dirs, out) == old(OutsideDirs(w.dirs, out))
    ensures FilesBelow(w.files, out) == old(FilesBelow(w.files, out))
    ensures DirsBelow(w.dirs, out) == old(DirsBelow(w.dirs, out))
    ensures out in w.dirs <==> old(out in w.dirs)
    ensures r == match unzip(old(w.files)[zipPath]) case None => Err(BadZipFile(zipPath)) case Some(m) => Ok(m)
    ensures r.Ok? ==>
              (TEMP_DIR + [ATMO_DIR, FUSEE] in w.files <==> [FUSEE] in r.value) &&
              ([FUSEE] in r.value ==> w.files[TEMP_DIR + [ATMO_DIR, FUSEE]] == r.value[[FUSEE]])
  {
    var scratch := TEMP_DIR + [ATMO_DIR];
    NothingBelowMissing(w, scratch);
    assert TEMP_DIR + [ATMO_DIR, FUSEE] !in FilesBelow(w.files, scratch);
    var made := w.MakeDir(scratch);
    assert made.Ok?;
    ghost var files1, dirs1 := w.files, w.dirs;
    r := ExtractArchive(w, out, zipPath, scratch, unzip);
    if r.Ok? {
      ExtractedIntoScratch(files1, dirs1, out, r.value);
      FuseeAfterExtract(files1, r.value);
    }
  }

  /** Step 2: unpack the Atmosphère archive and copy its fusee.bin to the output root. */
  method InstallFusee(w: Workspace, env: Upstream, out: Path, guarded: bool, sig: Members) returns (r: Result<Blob>)
    requires Ready(w, out) && !w.Exists(TEMP_DIR + [ATMO_DIR])
    requires out in w.dirs <==> sig != map[]
    modifies w
    ensures Ready(w, out)
    ensures OutsideFiles(w.files, out) == old(OutsideFiles(w.files, out))
    ensures OutsideDirs(w.dirs, out) == old(OutsideDirs(w.dirs, out))
    ensures DirsBelow(w.dirs, out) == old(DirsBelow(w.dirs, out))
    ensures r.Ok? <==> FuseeStage(env, guarded).Ok? && sig != map[]
    ensures r.Ok? ==>
              r == FuseeStage(env, guarded) &&
              FilesBelow(w.files, out) == old(FilesBelow(w.files, out))[out + [FUSEE] := r.value]
    ensures r.Err? ==>
              r.error == if FuseeStage(env, guarded).Err? then FuseeStage(env, guarded).error else FileNotFound(out + [FUSEE])
  {
    var m := UnpackAtmosphere(w, env, out, guarded);
    if m.Err? {
      return Err(m.error);
    }
    ghost var files1 := w.files;
    var copied := w.CopyFile(TEMP_DIR + [ATMO_DIR, FUSEE], out + [FUSEE]);
    if copied.Err? {
      return Err(copied.error);
    }
    OutsideUpdate(files1, out, out + [FUSEE], files1[TEMP_DIR + [ATMO_DIR, FUSEE]]);
    BelowUpdate(files1, out, out + [FUSEE], files1[TEMP_DIR + [ATMO_DIR, FUSEE]]);
    r := Ok(w.files[out + [FUSEE]]);
  }

  /** Step 3: create the plugin and config directories (`mkdir(parents=True, exist_ok=True)`). */
  method MakePluginDirs(w: Workspace, out: Path)
    requires Ready(w, out)
    modifies w
    ensures Ready(w, out) && w.files == old(w.files)
    ensures OutsideDirs(w.dirs, out) == old(OutsideDirs(w.dirs, out))
    ensures w.dirs == old(w.dirs) + PluginDirSet(out)
  {
    w.MakeDirs(TeslaApps(out));
    w.MakeDirs(EmuiiboData(out));
    w.MakeDirs(DaybreakDir(out));
    w.MakeDirs(ConfigDir(out));
    ChainWithin(out, TeslaApps(out));
    ChainWithin(out, EmuiiboData(out));
    ChainWithin(out, DaybreakDir(out));
    ChainWithin(out, ConfigDir(out));
    OutsideDirsUnion(old(w.dirs), PluginDirSet(out), out);
  }

  /** Steps 4 to 6: the first `.nro` asset of a plugin's release, downloaded into dir under its own name. */
  method InstallPlugin(w: Workspace, env: Upstream, out: Path, guarded: bool, repo: Repo, dir: Path) returns (r: Result<Asset>)
    requires Ready(w, out) && dir in w.dirs && out < dir
    modifies w
    ensures Ready(w, out) && w.dirs == old(w.dirs)
    ensures OutsideFiles(w.files, out) == old(OutsideFiles(w.files, out))
    ensures r.Ok? <==> PluginStage(env, guarded, repo).Ok?
    ensures r.Err? ==> r.error == PluginStage(env, guarded, repo).error
    ensures r.Ok? ==>
              var (asset, data) := PluginStage(env, guarded, repo).value;
              r.value == asset && FilesBelow(w.files, out) == old(FilesBelow(w.files, out))[dir + [asset.name] := data]
  {
    var asset := ResolveAsset(env, repo, NRO, guarded);
    if asset.Err? {
      return Err(asset.error);
    }
    var data := DownloadFile(w, env, asset.value, dir + [asset.value.name], true);
    if data.Err? {
      return Err(data.error);
    }
    OutsideUpdate(old(w.files), out, dir + [asset.value.name], data.value);
    BelowUpdate(old(w.files), out, dir + [asset.value.name], data.value);
    r := Ok(asset.value);
  }

  /** Step 7: write the settings file that enables the Tesla overlay. */
  method WriteConfig(w: Workspace, out: Path)
    requires Ready(w, out) && ConfigDir(out) in w.dirs
    modifies w
    ensures Ready(w, out) && w.dirs == old(w.dirs)
    ensures OutsideFiles(w.files, out) == old(OutsideFiles(w.files, out))
    ensures FilesBelow(w.files, out) == old(FilesBelow(w.files, out))[ConfigDir(out) + [SETTINGS] := CONFIG_BYTES]
  {
    var settings := ConfigDir(out) + [SETTINGS];
    var written := w.WriteFile(settings, CONFIG_BYTES);
    assert written.Ok?;
    OutsideUpdate(old(w.files), out, settings, CONFIG_BYTES);
    BelowUpdate(old(w.files), out, settings, CONFIG_BYTES);
  }

  /** Steps 3 to 7: the plugin directories, the three `.nro` downloads and the settings file. */
  method InstallPlugins(w: Workspace, env: Upstream, out: Path, guarded: bool) returns (failure: Option<(Step, Error)>)
    requires Ready(w, out)
    modifies w
    ensures Ready(w, out) && w.dirs == old(w.dirs) + PluginDirSet(out)
    ensures OutsideFiles(w.files, out) == old(OutsideFiles(w.files, out))
    ensures OutsideDirs(w.dirs, out) == old(OutsideDirs(w.dirs, out))
    ensures failure == PluginFailure(env, guarded)
    ensures failure.None? ==>
              FilesBelow(w.files, out) ==
                NroFiles(env, out, guarded, old(FilesBelow(w.files, out)))[ConfigDir(out) + [SETTINGS] := CONFIG_BYTES]
  {
    MakePluginDirs(w, out);
    assert TeslaApps(out) in Chain(TeslaApps(out)) && DaybreakDir(out) in Chain(DaybreakDir(out)) by {
      assert TeslaApps(out)[..|TeslaApps(out)|] == TeslaApps(out);
      assert DaybreakDir(out)[..|DaybreakDir(out)|] == DaybreakDir(out);
    }
    assert ConfigDir(out) in Chain(ConfigDir(out)) by {
      assert ConfigDir(out)[..|ConfigDir(out)|] == ConfigDir(out);
    }
    failure := DownloadPlugins(w, env, out, guarded);
    if failure.None? {
      WriteConfig(w, out);
    }
  }

  /** Steps 4 to 6: each plugin's first `.nro` asset, saved under its own name. */
  method DownloadPlugins(w: Workspace, env: Upstream, out: Path, guarded: bool) returns (failure: Option<(Step, Error)>)
    requires Ready(w, out) && TeslaApps(out) in w.dirs && DaybreakDir(out) in w.dirs
    modifies w
    ensures Ready(w, out) && w.dirs == old(w.dirs)
    ensures OutsideFiles(w.files, out) == old(OutsideFiles(w.files, out))
    ensures failure == PluginFailure(env, guarded)
    ensures failure.None? ==> FilesBelow(w.files, out) == NroFiles(env, out, guarded, old(FilesBelow(w.files, out)))
  {
    var tesla := InstallPlugin(w, env, out, guarded, TESLA_MENU, TeslaApps(out));
    if tesla.Err? {
      return Some((TeslaMenu, tesla.error));
    }
    var emuiibo := InstallPlugin(w, env, out, guarded, EMUIIBO, TeslaApps(out));
    if emuiibo.Err? {
      return Some((Emuiibo, emuiibo.error));
    }
    var dbi := InstallPlugin(w, env, out, guarded, DAYBREAK, DaybreakDir(out));
    if dbi.Err? {
      return Some((Daybreak, dbi.error));
    }
    failure := None;
  }

  /** Steps 1 to 7 in order, from the state the purge leaves; the first failure skips every later step. */
  method Assemble(w: Workspace, env: Upstream, out: Path, guarded: bool) returns (failure: Option<(Step, Error)>)
    requires Fresh(w, out)
    modifies w
    ensures Ready(w, out)
    ensures OutsideFiles(w.files, out) == old(OutsideFiles(w.files, out))
    ensures OutsideDirs(w.dirs, out) == old(OutsideDirs(w.dirs, out))
    ensures failure == FirstFailure(env, out, guarded)
    ensures failure.None? ==>
              FilesBelow(w.files, out) == ExpectedTree(env, out, guarded) &&
              DirsBelow(w.dirs, out) == ExpectedDirs(env, out, guarded)
  {
    var sig := InstallSigpatches(w, env, out, guarded);
    if sig.Err? {
      return Some((Sigpatches, sig.error));
    }
    var fusee := InstallFusee(w, env, out, guarded, sig.value);
    if fusee.Err? {
      return Some((Fusee, fusee.error));
    }
    ghost var dirs2 := w.dirs;
    failure := InstallPlugins(w, env, out, guarded);
    if failure.None? {
      DirsBelowUnion(dirs2, PluginDirSet(out), out);
      DirsBelowUnion(GraftDirs(out, sig.value), PluginDirSet(out), out);
    }
  }
}
