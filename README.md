# switch-atmo-builder in Dafny

A model of the two bundle builders of switch-atmo-builder, `build_pack.py` and
`atmo_pack_builder.py`, with proofs about how they behave. Each script downloads the
latest releases of five GitHub projects and assembles an SD-card tree for a Switch
running Atmosphère. The pieces are:

- the sigpatches archive, extracted straight into the output directory;
- the official `fusee.bin`, taken from the Atmosphère archive unpacked in `temp/atmo`;
- the Tesla Menu, emuiibo and DBI `.nro` files;
- a `system_settings.ini` that enables the Tesla overlay.

Each script then packs the tree into a ZIP file. A purge runs before the work starts, and a
`finally` block deletes the output and scratch directories on every exit.

The model has these parts:

- **Release selection** (`release.dfy`, `text.dfy`). `get_latest_release_asset` becomes
  two things over a parsed response (status, body text, asset list):
  - a pure function `Select`, whose contract is "the first asset in feed order whose name
    ends with the suffix";
  - the search loop `GetLatestReleaseAsset`, proved equal to it.

  The `atmo_pack_builder.py` variant checks for a rate-limited response first
  (`SelectGuarded`).
- **The working directory** (`filetree.dfy`). A class `Workspace` holds a set of
  directories and a map from file paths to bytes. Its methods are the calls the scripts
  make: `rmtree`, `mkdir`, `mkdir(parents=True)`, writing a file, `shutil.copy` and
  `extractall`. Each method raises the errors those calls raise. `Valid()` says that every
  ancestor of an entry is a directory.
- **The pipeline** (`bundle.dfy`), shared by both scripts:
  - `Purge` and `Cleanup`;
  - one method per step;
  - `Assemble`, which runs steps 1 to 7 in order. It is proved to stop at exactly the
    failure that `FirstFailure` names. On success it is proved to leave exactly
    `ExpectedTree` below the output directory. `ExpectedTree` is `Layout` applied to what
    upstream served.

  HTTP, ZIP decoding and the final archive write are inputs (`Upstream`).
- **Archive naming** (`archive.dfy`):
  - `build_pack.py` names each file relative to the parent of `SD_ROOT`.
  - `shutil.make_archive` in `atmo_pack_builder.py` names files and directories relative to
    the output directory.

  Both are sets of entries, with round-trip lemmas.
- **The two `main` functions** (`build_pack.dfy`, `atmo_pack_builder.dfy`). Each `Run` method is
  proved against a function of the upstream answers and the starting directory. That
  function gives how the run ends: the archive, `Exited(1, step, error)` or a crash during
  the purge. The proof also gives the directory the run leaves behind.
  - `atmo_pack_builder.py` as written calls an undefined helper at line 53 (see Findings).
  - `RunAsIntended` is the corrected run.

Some behaviour of the scripts worth knowing:

- Neither script has a fallback selector. Each lookup is one suffix test.
- Files keep their upstream asset names.
- `build_pack.py`'s archive names start with `SD_ROOT/`, while `atmo_pack_builder.py`'s are
  rooted at the output directory.
- The `.nro` downloads are not extracted.
- A failed run exits with status 1 after cleanup. The archive file itself is outside both
  deleted directories.

## Model

| member | source | states |
|---|---|---|
| Text.Contains | atmo_pack_builder.py:14 | `sub in s` is true exactly when sub occurs at some position of s |
| Release.FirstMatch | build_pack.py:16-18 | the position found is the first asset whose name ends with the suffix (every earlier one fails the test); None exactly when no asset matches |
| Release.Select | build_pack.py:11-19 | an error status gives HttpError; otherwise the result is the first matching asset in feed order, its name ends with the suffix, and NoAssetWithSuffix is raised only when no asset matches |
| Release.SelectGuarded | atmo_pack_builder.py:11-22 | the result is RateLimited exactly when the status is 403 and the body contains "rate limit"; otherwise it is the plain selection |
| Release.LatestAsset | build_pack.py:11-19 | a release query that cannot be made raises ConnectionFailed for the API URL before anything else, and that is the only way to get it; an answer goes to the plain or the guarded selection |
| Release.GetLatestReleaseAsset | build_pack.py:11-19 | the status check and the scan with early return compute exactly Select |
| Release.GetLatestReleaseAssetGuarded | atmo_pack_builder.py:11-22 | the guard, then the scan, compute exactly SelectGuarded |
| Release.LaterAssetsIgnored | build_pack.py:16-18 | appending assets after a match never changes which asset is chosen |
| Release.NonMatchingPrefixSkipped | build_pack.py:16-18 | non-matching assets in front only shift the position found by their number |
| Release.RateLimitPrecedesScan | atmo_pack_builder.py:14-17 | a rate-limited response gives RateLimited whatever its asset list, and not what `raise_for_status` would raise |
| FileTree.Workspace.RemoveTree | build_pack.py:38-41 | removes the directory and everything below it; on a plain file it raises NotADirectory and changes nothing |
| FileTree.Workspace.MakeDir | build_pack.py:42 | creates the directory only when it does not exist and its parent does; FileExists or FileNotFound otherwise |
| FileTree.Workspace.MakeDirs | build_pack.py:73-76 | adds the directory and all its ancestors and touches no file |
| FileTree.Workspace.WriteFile | build_pack.py:25-27 | stores the bytes at the path when the parent directory exists, FileNotFound otherwise |
| FileTree.Workspace.CopyFile | build_pack.py:65 | a missing source raises first; otherwise the destination gets the source's bytes, or FileNotFound when its directory is missing |
| FileTree.Workspace.ExtractZip | build_pack.py:29-31 | FileNotFound or BadZipFile leave the state unchanged; otherwise every member is written below the destination, overwriting, with all its directories created |
| Archive.ZipDirectory | build_pack.py:99-104 | the `os.walk` loop adds exactly one entry per file below the root, named relative to the base |
| Archive.PackFilesBijective | build_pack.py:99-104 | entries and files below the root correspond one to one; no two entries share a name |
| Archive.PackFilesRoundTrip | build_pack.py:99-104 | extracting the archive at the base gives back exactly the files below the root |
| Archive.NamesStartWithRoot | build_pack.py:103 | names relative to the root's parent all begin with the root's own name and have at least one more component |
| Archive.PackedFromTop | build_pack.py:99-104 | for a tree inside a top-level directory, every entry is a file whose name starts with that directory; each file is packed under its own path, and extraction at the working directory restores the tree |
| Archive.PackTreeRoundTrip | atmo_pack_builder.py:100 | `make_archive` names are relative to the root: extraction at the root gives back the files, and every directory below the root appears exactly once |
| Archive.PackedTreeFromRoot | atmo_pack_builder.py:100 | each file of a tree below the root is packed under its path relative to the root, and extraction at the root restores the tree |
| Archive.PackOnlyBelow | build_pack.py:100 | the archive depends only on what lies below the output directory |
| Bundle.ConfigBytesEncodeText | build_pack.py:94 | the settings file holds one byte per character of `[tesla]\nenabled = u8"1"\n`, each equal to its ASCII code |
| Bundle.Purge | build_pack.py:37-42 | a plain file named like the output or scratch directory makes `rmtree` raise; otherwise both trees are removed, scratch is recreated empty, and nothing else changes |
| Bundle.Cleanup | build_pack.py:111-116 | both trees are gone afterwards, and everything outside them is as before |
| Bundle.UnreachableFeedStopsStep | build_pack.py:49-81 | an unreachable release query for sigpatches stops the run at step 1 with ConnectionFailed, and one for Tesla Menu makes step 4 the first failing plugin step |
| Bundle.ResolveAsset | build_pack.py:49 | one lookup asks the feed of that repository once and applies the script's selection, plain in build_pack.py and rate-limit guarded in atmo_pack_builder.py |
| Bundle.DownloadFile | build_pack.py:21-27 | `raise_for_status` comes before the file is opened: an error status or failed request writes nothing; otherwise the body is written at the destination |
| Bundle.SaveToScratch | build_pack.py:50-51 | saving into scratch fails only when the request does, and changes nothing outside scratch |
| Bundle.FetchSigpatches | build_pack.py:49-51 | lookup and download errors are those of step 1; on success the saved archive is in the working directory and decoding it gives exactly step 1's outcome; `temp/atmo` is never created and the output tree is untouched |
| Bundle.ExtractArchive | build_pack.py:52 | extraction into the output directory or into scratch adds the members there and changes nothing outside those two trees |
| Bundle.InstallSigpatches | build_pack.py:49-52 | step 1's result is SigpatchesStage; on success the output tree is exactly the extracted archive, and the output directory exists only when the archive has members |
| Bundle.UnpackAtmosphere | build_pack.py:56-64 | the Atmosphère archive is saved without a status check and unpacked into `temp/atmo`; `temp/atmo/fusee.bin` is the archive's top-level fusee.bin, and the output tree is untouched |
| Bundle.UnpackInScratch | build_pack.py:62-64 | `mkdir` of `temp/atmo` succeeds and extraction there leaves the output tree unchanged |
| Bundle.InstallFusee | build_pack.py:55-65 | step 2 fails with the Atmosphère error, or with FileNotFound for `SD_ROOT/fusee.bin` when step 1 created no output directory; otherwise it writes the official fusee.bin at the output root |
| Bundle.MakePluginDirs | build_pack.py:67-76 | the four directory chains are added and no file changes |
| Bundle.InstallPlugin | build_pack.py:78-81 | one plugin's first `.nro` asset is written under its own name in the given directory, or that lookup's or download's error is raised |
| Bundle.DownloadPlugins | build_pack.py:78-91 | steps 4 to 6 run in order and stop at the first failing one (PluginFailure); on success the three `.nro` files are written |
| Bundle.WriteConfig | build_pack.py:93-94 | the settings file gets exactly CONFIG_BYTES |
| Bundle.InstallPlugins | build_pack.py:67-94 | steps 3 to 7: the plugin directories exist whatever happens next, and the `.nro` files and the settings file are written when no download fails |
| Bundle.Assemble | build_pack.py:44-94 | steps 1 to 7 fail exactly at FirstFailure, the first failing step in order; on success the tree below the output directory is ExpectedTree and its directories are ExpectedDirs; nothing outside the two trees changes |
| Bundle.LayoutKeys | build_pack.py:47-94 | after success the output tree holds the sigpatches files and the five written files, nothing else, all inside the output directory |
| Bundle.LayoutWrittenFiles | build_pack.py:65-94 | fusee.bin sits at the output root; `tesla/apps` holds the emuiibo asset, and the Tesla Menu asset when their names differ; `switch/Daybreak` holds DBI; `atmosphere/config/system_settings.ini` holds the Tesla setting |
| Bundle.LayoutKeepsSigpatches | build_pack.py:52-65 | every sigpatches member that no later step overwrites keeps its bytes and its place |
| Bundle.PackedLayout | build_pack.py:96-104 | the packed success tree has only file entries starting with the output directory's name, extracts back to the tree, and contains fusee.bin and the settings file |
| Bundle.PackedTreeLayout | atmo_pack_builder.py:97-100 | the tree packed relative to the output directory extracts back to it, with `fusee.bin` and `atmosphere/config/system_settings.ini` at the archive's root |
| BuildPack.Run | build_pack.py:33-116 | the run ends as Outcome says: a crash when the purge hits a plain file, `Exited(1, step, error)` at the first failure including the archive write, or the archive of ExpectedTree; after any non-crashing run neither `SD_ROOT` nor `temp` exists, and everything else in the modelled working directory (which does not hold the archive file) is untouched |
| BuildPack.PackLayout | build_pack.py:96-104 | every entry of the success archive is a file named `SD_ROOT/...`, the archive extracts back to the whole tree, and `SD_ROOT/fusee.bin` and `SD_ROOT/atmosphere/config/system_settings.ini` carry the official fusee.bin and the Tesla setting |
| AtmoPackBuilder.Run | atmo_pack_builder.py:36-112 | as written: after the purge, a rate-limited or failing sigpatches lookup exits 1, and any other run exits 1 with NameError for `download_and_extract`; `finally` removes both trees either way |
| AtmoPackBuilder.AsWrittenNeverBuilds | atmo_pack_builder.py:53 | no run of the script as written produces an archive; every non-crashing run exits 1 at step 1, with NameError whenever the lookup succeeds |
| AtmoPackBuilder.NameErrorOnHealthyUpstream | atmo_pack_builder.py:49-53 | on an upstream where every step succeeds, the intended run builds the archive while the script as written exits with NameError |
| AtmoPackBuilder.RunAsIntended | atmo_pack_builder.py:36-112 | with step 1 using `download_file` and `extract_zip_to`, the run ends as IntendedOutcome says (guarded lookups, a `make_archive` archive of files and directories) and leaves neither tree behind |
| AtmoPackBuilder.PackLayout | atmo_pack_builder.py:97-100 | the intended archive extracts into `Atmo_Integration_Pack` as the whole tree, and holds `fusee.bin` and `atmosphere/config/system_settings.ini` with no leading directory |

## Left out

- HTTP transport through `requests`. The headers, timeouts and the chunking of
  `iter_content` are gone. Each release query gives a status, a body text and the parsed
  asset list, or no answer when the request cannot be made (`ConnectionFailed` with the API
  URL). Each download is a status and a body, or a request that cannot be made.
- Bodies that are not JSON, and a missing `assets`, `name` or `browser_download_url` key.
  These would raise, but the feed is given already parsed.
- ZIP internals: compression, member order, directory members and unsafe member names
  inside the downloaded archives. `unzip` is an input that yields the file members or
  reports a bad archive.
- Name clashes between files and directories, for example a sigpatches member that is a
  plain file named `tesla`, which would make `mkdir` raise. Files and directories are kept
  apart.
- Asset names containing `/`. Each asset name is one path component.
- The archive file in the working directory. It is outside both deleted trees. Writing it
  is one input (`archiveWritable`), and a partial file left by a failed write is not
  modelled.
- Newline translation of `write_text` on Windows, and the locale encoding that
  `atmo_pack_builder.py` uses. The settings text is ASCII, so the bytes are those of
  POSIX with UTF-8.
- Console output. `sys.exit(1)` on a rate-limited response is `Exited(1, step,
  RateLimited)`. It bypasses `except Exception`, but `finally` still runs, so the end state
  is the same.
- Operating-system failures beyond those listed: permissions, a full disk, symlinks, a
  failure inside `finally`, and concurrent runs.
- The GitHub workflow and executable packaging of the repository are not part of this
  model.

## Findings

| source | as written | input that shows it | evidently intended | confidence | as-written member | corrected member |
|---|---|---|---|---|---|---|
| atmo_pack_builder.py:53 | step 1 calls `download_and_extract`, which the script never defines, so every run that gets past the sigpatches lookup raises NameError and exits 1 | `HEALTHY`: every feed lists `a.zip` and `a.nro`, every download answers 200, and every archive holds `fusee.bin` | download the asset into `temp` with `download_file`, then `extract_zip_to` into the output directory, as build_pack.py:51-52 does | high; not executed | AtmoPackBuilder.Run, AtmoPackBuilder.NameErrorOnHealthyUpstream | AtmoPackBuilder.RunAsIntended |
