# setupNEMO_ARC2: staging NEMO ocean-model runs

`setupNEMO_ARC2.py` prepares runs of the NEMO ocean model on the ARCHER2
machine. For each case of a small campaign (five cases, numbered 83 to 87),
the script does the following:

- picks a configuration by its type (`AJTOY`, `ASF`, `SVM`, `SR_ML`);
- stages a fresh run directory with `main`. This copies the template, selects and
  patches the reference namelist, links the model executable and the inputs,
  links one flux-forcing file per year and grid, writes the `rPARAMS.py`
  manifest and three batch drivers, and adds the run to a launch ledger
  (`rfiles/runme`);
- prepares the model grid with `mkmesh` (and `mkdomcfg` inside it);
- submits the production driver to the batch scheduler.

The generated drivers (`goNEMOquick.sh`, `goNEMOlong.sh`,
`goNEMOproduction.sh`) are bash scripts. The long and production drivers step
through model years. They keep the next year in a state file, `time.year.step`,
so that a job cut off by the scheduler's time limit resumes where it stopped.

This project models that behaviour in Dafny. It has these parts:

- **Filesystem.** A directory tree is a map from paths to directories, files
  and symbolic links (module `Fs`). Each primitive the script uses is a
  function that returns the new tree and an outcome: `os.mkdir`, `os.symlink`,
  `shutil.copy2`, `shutil.move`, `os.remove`, `open(..., 'w'/'a')`, the
  `mkdir` helper built on `os.makedirs`, and a sorted `glob`. The class
  `Disk.FileSystem` holds the tree and the working directory and changes them
  in place.
- **Staging and the grid.** Each operation is a method on `FileSystem`
  (modules `Staging`, `Forcing`, `Domain`). The method is proved to leave
  exactly the tree given by running a list of steps (`Ops.ExecAll`, which stops
  at the first failing step). Lemmas then state what those steps do: which
  files and links appear, which errors stop the run, and which earlier state
  a failure leaves untouched.
- **Drivers.** Each driver is a value (module `Drivers`) carrying its
  prologue, its loop bounds and its final check. The events one loop emits are
  specified by `LoopEvents`. Module `Jobs` executes the drivers imperatively
  against the filesystem, with a `Job` log and a step budget standing for the
  scheduler's time limit. It proves what a job leaves behind when it finishes,
  fails or is pre-empted, and how the next submission resumes.
- **Campaign.** Module `Dispatch` holds the campaign: the configuration type
  chosen per case, the five cases staged in turn, and the ledger of submitted
  run directories.

The code and the behaviour one would expect disagree in one place, and the
model follows the code. An empty namelist patch (`{}`) is not skipped: the
test is `is not None`, so `namelist_ref` must exist and is rewritten through
the namelist library even when the patch is empty.

## Model

| member | source | states |
|---|---|---|
| Fs.Children | asf_c86_00008/setupNEMO_ARC2.py:313 | a name is listed exactly when the directory holds a visible entry of that name |
| Fs.Glob | asf_c86_00008/setupNEMO_ARC2.py:313 | `sorted(glob(dir+'*'))`: exactly the visible children, strictly sorted |
| Fs.Resolve | asf_c86_00008/setupNEMO_ARC2.py:303 | a path that is not a link resolves to itself |
| Fs.ResolveLink | asf_c86_00008/setupNEMO_ARC2.py:303 | a link resolves to its target, and only a link resolves elsewhere; one level is followed |
| Fs.Mkdir | asf_c86_00008/setupNEMO_ARC2.py:255 | `os.mkdir` succeeds iff the path is new and its parent is a directory; it adds exactly one directory; on failure nothing changes; the tree stays well formed |
| Fs.Symlink | asf_c86_00008/setupNEMO_ARC2.py:303 | `os.symlink` succeeds iff the link path is new and its parent is a directory; it adds exactly that link; on failure nothing changes |
| Fs.WriteFile | asf_c86_00008/setupNEMO_ARC2.py:378 | `open(p,'w')` succeeds iff the resolved path is not a directory and has a directory parent; it replaces only that file; on failure nothing changes |
| Fs.AppendLine | asf_c86_00008/setupNEMO_ARC2.py:781-782 | `open(p,'a')` adds one line to an existing text file or creates a one-line file, and touches no other path; a failure changes nothing |
| Fs.AppendLineSucceeds | asf_c86_00008/setupNEMO_ARC2.py:781-782 | `open(p,'a')` succeeds exactly when the path, after one link, is a text file, or is absent with a directory as parent |
| Fs.Copy | asf_c86_00008/setupNEMO_ARC2.py:362 | `shutil.copy2` onto a file name needs a source file and a different destination; the destination gets the source's content; a missing source is reported as missing; a failure changes nothing |
| Fs.CopySucceeds | asf_c86_00008/setupNEMO_ARC2.py:362 | `shutil.copy2` onto a file name succeeds exactly when the source is a file, the two ends differ, and the destination, after one link, is not a directory and has a directory as parent |
| Fs.Move | asf_c86_00008/setupNEMO_ARC2.py:320 | moving a non-directory onto a file name succeeds exactly when that name is not a directory and has a directory as parent; the entry itself (a link is not followed) takes the name; a missing source is reported; a failure changes nothing |
| Fs.Remove | asf_c86_00008/setupNEMO_ARC2.py:348 | `os.remove` succeeds iff the path holds a non-directory, and removes just that entry |
| Fs.PatchFile | asf_c86_00008/setupNEMO_ARC2.py:354 | `f90nml.patch` writes the patched namelist to the output path and changes nothing else; a missing input is reported |
| Fs.MakeDirs | asf_c86_00008/setupNEMO_ARC2.py:35-43 | the `mkdir` helper ends with a directory at the path, changes nothing outside the path's prefixes, and is a no-op on an existing directory |
| Fs.MakeDirsSucceeds | asf_c86_00008/setupNEMO_ARC2.py:35-43 | in a well-formed tree the `mkdir` helper succeeds exactly when the path is a directory already, or no prefix of it is anything but a directory or absent |
| Fs.MakeDirsFromPass | asf_c86_00008/setupNEMO_ARC2.py:35-43 | from a prefix that is a directory, `os.makedirs` succeeds exactly when every longer prefix is a directory or absent |
| Fs.MakeDirsFromAtomic | asf_c86_00008/setupNEMO_ARC2.py:35-43 | a failed `mkdir` helper leaves the tree unchanged |
| Fs.CopiedFiles | asf_c86_00008/setupNEMO_ARC2.py:313-317 | the copies a flat copy makes: one per listed name that is a file, with its content |
| Fs.FlatCopyExact | asf_c86_00008/setupNEMO_ARC2.py:313-317 | an empty glob stops with the glob's assertion; otherwise, into a fresh directory, the copy adds exactly the files of the template directory and skips its sub-directories |
| Fs.CopyEachExact | asf_c86_00008/setupNEMO_ARC2.py:313-317 | the copy loop, run over the remaining names, ends with exactly the copies of all names |
| Ops.ExecAll | asf_c86_00008/setupNEMO_ARC2.py:120-783 | the steps of `main` run in order and the first exception ends the run; running them keeps the tree well formed and removes no directory |
| Disk.FileSystem.Chdir | asf_c86_00008/setupNEMO_ARC2.py:256 | `os.chdir` succeeds iff the path is a directory; it changes only the working directory |
| Disk.FileSystem.CopyTemplate | asf_c86_00008/setupNEMO_ARC2.py:313-317 | the in-place flat copy leaves the tree that the flat-copy step gives |
| Setup.Workdir | asf_c86_00008/setupNEMO_ARC2.py:158-159 | the run directory is one level below the run root and is named `config_case` |
| Setup.WorkdirRendered | asf_c86_00008/setupNEMO_ARC2.py:158-159 | the run directory's path renders as the manifest's `rP_WORKDIR` text |
| Setup.RunRootRendered | asf_c86_00008/setupNEMO_ARC2.py:158 | the run root renders as `/work/n02/n02/chbull/nemo/run` |
| Setup.TemplateGrandparent | asf_c86_00008/setupNEMO_ARC2.py:753 | `os.path.dirname` applied three times to the text of the template folder (with its trailing '/') is the text of the folder without its last two components, or "/" when nothing is left |
| Setup.ThreeDirNames | asf_c86_00008/setupNEMO_ARC2.py:753 | three `os.path.dirname` calls on `/a/.../x/y/` give `/a/...`, and "/" for a folder less than three deep |
| Paths.DirNameAfter | asf_c86_00008/setupNEMO_ARC2.py:753 | `os.path.dirname` of a path's text followed by "/" and a name without '/' (or by "/" alone) is the path's text, or "/" at the root |
| Paths.DirNameOfDir | asf_c86_00008/setupNEMO_ARC2.py:753 | `os.path.dirname` of a folder's text with a trailing '/' is the folder's own text, or "/" at the root |
| Paths.DirNameOfPath | asf_c86_00008/setupNEMO_ARC2.py:753 | `os.path.dirname` of a path's text is its parent's text, or "/" for a top-level name |
| Paths.DirNameRoot | asf_c86_00008/setupNEMO_ARC2.py:753 | `os.path.dirname("/")` is "/" |
| Setup.TwoDirNames | asf_c86_00008/setupNEMO_ARC2.py:753 | two `os.path.dirname` calls on a path's text drop its last two components, giving "/" when fewer than three are left over |
| Paths.SlashEndBefore | asf_c86_00008/setupNEMO_ARC2.py:753 | the last '/' of `a/x`, for a name `x` without '/', is the one before `x` |
| Paths.RenderEnds | asf_c86_00008/setupNEMO_ARC2.py:753 | the text of a path with named components does not end in '/' |
| Setup.LedgerFile | asf_c86_00008/setupNEMO_ARC2.py:776-778 | the ledger `runme` lies directly in the `rfiles` directory |
| Text.Dec | asf_c86_00008/setupNEMO_ARC2.py:343 | `str(n)`: all digits, no leading zero |
| Text.DecValue | asf_c86_00008/setupNEMO_ARC2.py:343 | reading back `str(n)` gives `n` |
| Text.DecOfDigits | asf_c86_00008/setupNEMO_ARC2.py:343 | a canonical digit string is `str` of its value |
| Text.ZFill | asf_c86_00008/setupNEMO_ARC2.py:798 | `zfill(width)` has length `max(len, width)` |
| Text.ZFillDecValue | asf_c86_00008/setupNEMO_ARC2.py:343 | a zero-filled number still reads back as the same number |
| Text.ZFillDecInjective | asf_c86_00008/setupNEMO_ARC2.py:343 | different years give different zero-filled tags |
| Text.FourDigitYear | asf_c86_00008/setupNEMO_ARC2.py:343 | years below 10000 give exactly four characters |
| Text.DropLast3 | asf_c86_00008/setupNEMO_ARC2.py:338 | `s[:-3]` removes the last three characters, and yields the empty string for shorter input |
| Text.DropLast3Concat | asf_c86_00008/setupNEMO_ARC2.py:338 | dropping three characters only affects the tail of a path text |
| Text.Sorted | asf_c86_00008/setupNEMO_ARC2.py:313 | `sorted` of a set of names: same elements, same size, strictly ascending |
| Text.SortedDistinct | asf_c86_00008/setupNEMO_ARC2.py:313 | a strictly sorted listing has no repeated name |
| Namelist.Apply | asf_c86_00008/setupNEMO_ARC2.py:354 | patching keeps every group, sets every leaf the patch names to the patch's value, and keeps every other leaf; no other leaf appears |
| Namelist.ApplyIdempotent | asf_c86_00008/setupNEMO_ARC2.py:350-355 | applying the same patch twice is the same as once |
| Namelist.ApplyEmpty | asf_c86_00008/setupNEMO_ARC2.py:350-355 | the empty patch `{}` leaves the namelist as it is |
| Namelist.ApplyCompose | asf_c86_00008/setupNEMO_ARC2.py:350-355 | two patches in turn equal one patch merged from both |
| Namelist.ApplyOtherGroupsUntouched | asf_c86_00008/setupNEMO_ARC2.py:350-355 | a group the patch does not name is unchanged |
| Namelist.DynTrdPatch | asf_c86_00008/setupNEMO_ARC2.py:688 | `-g namtrd -v ln_dyn_trd=True` names only `namtrd.ln_dyn_trd`, set to true |
| Manifest.Parameters | asf_c86_00008/setupNEMO_ARC2.py:378-404 | the manifest holds twelve parameters and assigns no name twice |
| Manifest.Assignments | asf_c86_00008/setupNEMO_ARC2.py:378-404 | one assignment line per parameter, in order |
| Manifest.ManifestLines | asf_c86_00008/setupNEMO_ARC2.py:378-404 | `rPARAMS.py` is its header, then the twelve assignments in order, then its footer |
| Manifest.IndexOf | asf_c86_00008/setupNEMO_ARC2.py:388-399 | the first occurrence of a character, or none |
| Manifest.ParseAssignmentInverse | asf_c86_00008/setupNEMO_ARC2.py:388-399 | an assignment line reads back as its name and value |
| Manifest.ManifestReadsBack | asf_c86_00008/setupNEMO_ARC2.py:388-399 | each assignment line of the manifest reads back as its parameter |
| Manifest.AsfC75Manifest | asf_c75_00008/rPARAMS.py:6-17 | for case 75, the cores, run directory and years match the manifest that run produced |
| Forcing.Role | asf_c86_00008/setupNEMO_ARC2.py:343-346 | each grid role is a single letter |
| Forcing.ForcingTarget | asf_c86_00008/setupNEMO_ARC2.py:338 | a grid's forcing file lies beside the named forcing file |
| Forcing.YearOps | asf_c86_00008/setupNEMO_ARC2.py:343-346 | one year makes three links: T, U, V, each to its grid file and named for that year |
| Forcing.ForcingCount | asf_c86_00008/setupNEMO_ARC2.py:342 | `np.arange(y0, end)` makes three links per year, none for an empty range |
| Forcing.ForcingCovers | asf_c86_00008/setupNEMO_ARC2.py:342-346 | every year of the range and every grid has its link at its place in the loop |
| Forcing.ForcingOpAt | asf_c86_00008/setupNEMO_ARC2.py:342-346 | every step of the loop is the link for one grid and one year of the range |
| Forcing.ForcingNameDistinct | asf_c86_00008/setupNEMO_ARC2.py:343-346 | different (grid, year) pairs give different link names |
| Forcing.ForcingPathsDistinct | asf_c86_00008/setupNEMO_ARC2.py:342-346 | two steps of the loop never make a link at the same path |
| Forcing.ForcingFresh | asf_c86_00008/setupNEMO_ARC2.py:337-346 | in the freshly made forcing directory every link of the loop can be made |
| Forcing.ForcingOthers | asf_c86_00008/setupNEMO_ARC2.py:342-346 | a path that is no forcing name is not touched by the loop |
| Forcing.ForcingLinksExact | asf_c86_00008/setupNEMO_ARC2.py:342-346 | into an empty directory the loop succeeds, leaves each (grid, year) link pointing at its grid file, and changes no other path |
| Forcing.ForcingTargetRendered | asf_c86_00008/setupNEMO_ARC2.py:338 | the grid file's text is `FLXFCE[:-3] + grid + '.nc'` |
| Forcing.LinkForcing | asf_c86_00008/setupNEMO_ARC2.py:342-346 | the loop, in place, leaves the tree its step list gives |
| Forcing.ForcingHead | asf_c86_00008/setupNEMO_ARC2.py:343-346 | the links still to make from a year start with that year's T, U and V links, followed by the later years' |
| Staging.CheckInputs | asf_c86_00008/setupNEMO_ARC2.py:132-253 | the preflight runs in place as its step list |
| Staging.PreflightResult | asf_c86_00008/setupNEMO_ARC2.py:132-253 | the preflight changes nothing; in order it reports a missing bathymetry, initial state or executable, then an existing run directory |
| Staging.MainStopsOnPreflight | asf_c86_00008/setupNEMO_ARC2.py:132-253 | when the preflight fails, `main` stops there with the tree unchanged |
| Staging.RunDirConflict | asf_c86_00008/setupNEMO_ARC2.py:251-253 | an existing run directory stops `main` with nothing changed |
| Staging.StagedDirExists | asf_c86_00008/setupNEMO_ARC2.py:255 | once the run directory is made, it is still a directory at the end of `main`, whatever fails later |
| Staging.CreateRunDir | asf_c86_00008/setupNEMO_ARC2.py:255-303 | creation runs in place as its step list and moves into the run directory |
| Staging.CreateExact | asf_c86_00008/setupNEMO_ARC2.py:251-303 | creation makes the run directory, README, env_rec and the `nemo.exe` link |
| Staging.CreateFails | asf_c86_00008/setupNEMO_ARC2.py:255 | a taken path or missing parent fails `os.mkdir` with nothing changed |
| Staging.TemplateIntoRunDir | asf_c86_00008/setupNEMO_ARC2.py:313-317 | the new run directory is a valid target for the template copy |
| Staging.NewEntries | asf_c86_00008/setupNEMO_ARC2.py:255-303 | creation leaves the template intact and adds only README, env_rec and `nemo.exe` to the run directory |
| Staging.TemplateCopyExact | asf_c86_00008/setupNEMO_ARC2.py:313-317 | the template copy adds exactly the template's files to the run directory, or stops on an empty glob |
| Staging.SelectNamelist | asf_c86_00008/setupNEMO_ARC2.py:319-348 | namelist selection runs in place as its step list |
| Staging.SelectAjtoy | asf_c86_00008/setupNEMO_ARC2.py:319-321 | AJTOY renames `namelist_ref_ajtoy` to `namelist_ref`, or reports it missing |
| Staging.SelectOther | asf_c86_00008/setupNEMO_ARC2.py:347-348 | other types remove `namelist_ref_ajtoy`, or report it missing |
| Staging.RenameAsf | asf_c86_00008/setupNEMO_ARC2.py:323-337 | the ASF renames run in place as their step list |
| Staging.AsfRenamesExact | asf_c86_00008/setupNEMO_ARC2.py:322-337 | ASF renames the namelist and output definition and makes an empty forcing directory, then continues with the forcing checks and links |
| Staging.CheckForcing | asf_c86_00008/setupNEMO_ARC2.py:338-340 | the forcing checks run in place as their step list |
| Staging.ForcingChecksRun | asf_c86_00008/setupNEMO_ARC2.py:338-340 | the grid checks test T, U and V in that order, stop at the first grid that does not exist with that grid named as missing, and never change the tree |
| Staging.RequirePath | asf_c86_00008/setupNEMO_ARC2.py:338 | `assert(os.path.exists(p))` passes exactly when p exists (a dangling link does not) and changes nothing |
| Staging.ForcingChecksResult | asf_c86_00008/setupNEMO_ARC2.py:338-340 | the checks change nothing and fail exactly on the first missing T, U or V grid file |
| Staging.ForcingGridMissing | asf_c86_00008/setupNEMO_ARC2.py:338-340 | a missing grid file stops staging before any forcing link is made |
| Staging.ForcingStaged | asf_c86_00008/setupNEMO_ARC2.py:333-346 | with all grids present, years y0 to yearMax+51 each get three links to the right grid files, and nothing else changes |
| Staging.PatchAndActivate | asf_c86_00008/setupNEMO_ARC2.py:350-362 | the patch and copy run in place as their step list |
| Staging.PatchReference | asf_c86_00008/setupNEMO_ARC2.py:349-355 | with a patch, the reference namelist must exist, is patched into `namelist_ref_new` and renamed back, all in place as their step list; without one nothing happens |
| Staging.PatchThenActivate | asf_c86_00008/setupNEMO_ARC2.py:350-362 | `namelist_ref` and `namelist_cfg` both end as the patched namelist, `namelist_ref_new` is gone, and nothing else changes |
| Staging.PatchMissingRef | asf_c86_00008/setupNEMO_ARC2.py:350-355 | a patch without `namelist_ref` stops on its assertion with nothing changed |
| Staging.LinkInputs | asf_c86_00008/setupNEMO_ARC2.py:367-373 | the input links are made in place as their step list |
| Staging.RoleLinksExact | asf_c86_00008/setupNEMO_ARC2.py:367-373 | the ice-shelf draft and bathymetry link to BFILE, the initial and restoring state link to TSFILE |
| Staging.RoleLinkTaken | asf_c86_00008/setupNEMO_ARC2.py:367-373 | a role name already present makes linking fail as already existing |
| Staging.ManifestWritten | asf_c86_00008/setupNEMO_ARC2.py:378-404 | `rPARAMS.py` is written when new, and holds the manifest lines |
| Staging.WriteScripts | asf_c86_00008/setupNEMO_ARC2.py:407-571 | the quick and long drivers are written in place as their step list |
| Staging.WriteProduction | asf_c86_00008/setupNEMO_ARC2.py:574-773 | the production driver is written in place as its step list |
| Staging.WriteDrivers | asf_c86_00008/setupNEMO_ARC2.py:407-773 | all three drivers are written in place as their step list |
| Staging.DriversNeedSpinupTool | asf_c86_00008/setupNEMO_ARC2.py:407-773 | writing drivers succeeds iff `mk_nemo_spinup.py` exists; quick and long are written either way, and production is left partial when it fails |
| Staging.RecordLedger | asf_c86_00008/setupNEMO_ARC2.py:776-782 | the ledger update runs in place as its step list |
| Staging.LedgerDirReady | asf_c86_00008/setupNEMO_ARC2.py:776 | `mkdir(workfol+'rfiles/')` in an existing template folder makes just that directory |
| Staging.MakeDirsLast | asf_c86_00008/setupNEMO_ARC2.py:35-43 | `os.makedirs` with only the last component missing adds just that directory |
| Staging.LedgerAppends | asf_c86_00008/setupNEMO_ARC2.py:776-782 | a new ledger starts with YEAR_MAX and then the run's line; an existing ledger gets the run's line appended and keeps its first line |
| Staging.StageRun | asf_c86_00008/setupNEMO_ARC2.py:120-783 | `main` returns the run directory and runs in place as its full step list |
| Domain.MakeMesh | asf_c86_00008/setupNEMO_ARC2.py:84-116 | `mkmesh` runs in place as its step list and ends in the domain directory when it builds one |
| Domain.LinkRogueDomain | asf_c86_00008/setupNEMO_ARC2.py:105-109 | the 'rogue' mode runs in place as its step list: the external file must exist and `domain_cfg.nc` in the run directory becomes a link to it |
| Domain.MakeDomainConfig | asf_c86_00008/setupNEMO_ARC2.py:46-81 | `mkdomcfg` runs in place as its step list and moves into `domaincfg/` |
| Domain.StartDomainDir | asf_c86_00008/setupNEMO_ARC2.py:49-57 | making and filling `domaincfg/` runs in place as its step list |
| Domain.DomainStartExact | asf_c86_00008/setupNEMO_ARC2.py:49-57 | `domaincfg/` is made and gets exactly the files of the template's `domaincfg/`, or stops on an empty glob |
| Domain.DomainDirTaken | asf_c86_00008/setupNEMO_ARC2.py:49 | an existing `domaincfg/` stops `mkmesh` with nothing changed |
| Domain.WriteBathymetry | asf_c86_00008/setupNEMO_ARC2.py:59-72 | the bathymetry links and ice-shelf removal run in place as their step list |
| Domain.BathyLinks | asf_c86_00008/setupNEMO_ARC2.py:59-62 | the domain directory gets the draft and bathymetry links to BFILE, or fails when either name is taken |
| Domain.KillIceShelf | asf_c86_00008/setupNEMO_ARC2.py:64-65 | the nco step runs in place as its step list |
| Domain.NcoRun | asf_c86_00008/setupNEMO_ARC2.py:63-65 | on a prepared domain directory the nco commands succeed and leave the files they produce |
| Domain.KillIsfOutcome | asf_c86_00008/setupNEMO_ARC2.py:63-72 | with the ice shelf removed, the bathymetry is nco's file and the intermediates are gone, or the run fails on the missing output |
| Domain.RemoveIntermediates | asf_c86_00008/setupNEMO_ARC2.py:66-72 | the clean-up runs in place as its step list |
| Domain.CleanupRun | asf_c86_00008/setupNEMO_ARC2.py:66-72 | a missing bathymetry stops the run, a missing intermediate is reported, otherwise both intermediates are removed |
| Domain.IntermediatesGone | asf_c86_00008/setupNEMO_ARC2.py:71-72 | after the clean-up only the new bathymetry remains of nco's files |
| Domain.PatchDomainNamelist | asf_c86_00008/setupNEMO_ARC2.py:76-81 | the domain namelist patch runs in place as its step list |
| Domain.DomainNamelistPatched | asf_c86_00008/setupNEMO_ARC2.py:76-81 | `namelist_cfg` in `domaincfg/` becomes the patched namelist and the `_new` file is gone |
| Domain.DomainNamelistCases | asf_c86_00008/setupNEMO_ARC2.py:76-78 | no patch changes nothing; a patch without the namelist stops as missing |
| Domain.PrologueMatchesMesh | asf_c86_00008/setupNEMO_ARC2.py:101-104 | the drivers build the grid exactly when `mkmesh` prepares `domaincfg/` |
| Domain.MeshModes | asf_c86_00008/setupNEMO_ARC2.py:105-114 | a `rogue` grid is linked as `domain_cfg.nc` when it exists and the name is free, and is otherwise reported missing or already existing; a kind other than `''`, `hacked` and `rogue` stops with nothing changed |
| Drivers.PrologueFor | asf_c86_00008/setupNEMO_ARC2.py:432-456 | the drivers build the grid iff the kind is `''` or `hacked`, and run the hack script iff it is `hacked` |
| Drivers.Generate | asf_c86_00008/setupNEMO_ARC2.py:538-740 | all drivers share the prologue; the long loop runs below YEAR_MAX+1, the spin-up below YEAR_MAX-9, the production loop and final check at YEAR_MAX+1 |
| Drivers.Iteration | asf_c86_00008/setupNEMO_ARC2.py:549-565 | one pass of the loop body is five events: preNEMO, the model run, postNEMO, the wait, and saving the next year |
| Drivers.ResumeYear | asf_c86_00008/setupNEMO_ARC2.py:563-565 | a cut-off loop leaves a year between its start and its exit |
| Drivers.LoopLength | asf_c86_00008/setupNEMO_ARC2.py:538-566 | a loop makes five events per year it runs |
| Drivers.LoopEventAt | asf_c86_00008/setupNEMO_ARC2.py:538-566 | event i is step i mod 5 of year start + i/5 |
| Drivers.LoopSplit | asf_c86_00008/setupNEMO_ARC2.py:538-566 | a loop is the loop to any middle year followed by the rest |
| Drivers.RunsEachYearOnce | asf_c86_00008/setupNEMO_ARC2.py:538-566 | every model run in the loop is for a year of the range, at its place |
| Drivers.EveryYearRuns | asf_c86_00008/setupNEMO_ARC2.py:538-566 | every year of the range has its model run |
| Drivers.NemoInLoop | asf_c86_00008/setupNEMO_ARC2.py:538-566 | the model runs for a year iff the year is in the loop's range |
| Drivers.LongFinalYear | asf_c86_00008/setupNEMO_ARC2.py:538-566 | the long loop exits at YEAR_MAX+1, or at once when started later |
| Drivers.PersistAfterCleanup | asf_c86_00008/setupNEMO_ARC2.py:554-565 | the next year is saved only after the post-processing and the wait for the year before |
| Drivers.ResumeCompleted | asf_c86_00008/setupNEMO_ARC2.py:528-565 | resuming does not move the exit; every year before the resume year was fully done and saved |
| Drivers.ResumeNoRunAhead | asf_c86_00008/setupNEMO_ARC2.py:528-565 | no model run is for a year beyond the one saved |
| Drivers.ResumeTrace | asf_c86_00008/setupNEMO_ARC2.py:528-565 | a cut-off loop did all years before the saved one and part of that year |
| Drivers.ProductionFinalCheck | asf_c86_00008/setupNEMO_ARC2.py:740-768 | the production loop exits at `max(start, YEAR_MAX+1)`; the final check passes iff the start was at most YEAR_MAX+1 |
| Drivers.ProductionPhases | asf_c86_00008/setupNEMO_ARC2.py:648-731 | spin-up runs the years below YEAR_MAX-9, the production loop the rest up to YEAR_MAX |
| Drivers.ProductionThirtyYears | asf_c86_00008/setupNEMO_ARC2.py:645-740 | for 30 years from year 1: years 1 to 20 in spin-up, 21 to 30 in production, final year 31 |
| Jobs.StateFile | asf_c86_00008/setupNEMO_ARC2.py:528 | `time.year.step` lies directly in the directory the job is in |
| Jobs.YearLineRoundTrip | asf_c86_00008/setupNEMO_ARC2.py:565 | `year=N` reads back as N, and only that line reads as N |
| Jobs.FreshStart | asf_c86_00008/setupNEMO_ARC2.py:528-533 | without a state file the job writes `year=1` and starts at 1 |
| Jobs.ReadStateSettles | asf_c86_00008/setupNEMO_ARC2.py:528-533 | after reading, the state file holds the year read |
| Jobs.WriteTwice | asf_c86_00008/setupNEMO_ARC2.py:565 | a second write to a path overrides the first |
| Jobs.OverwriteFile | asf_c86_00008/setupNEMO_ARC2.py:565 | a write to an existing file keeps the new content |
| Jobs.PersistAgain | asf_c86_00008/setupNEMO_ARC2.py:563-565 | saving year after year leaves only the last year saved |
| Jobs.PersistedReadsBack | asf_c86_00008/setupNEMO_ARC2.py:528-565 | what the loop saved is what the next job reads |
| Jobs.RunYear | asf_c86_00008/setupNEMO_ARC2.py:543-565 | a year with enough budget logs its five events and saves the next year; otherwise it logs what fits and the state is unchanged |
| Jobs.YearLoop | asf_c86_00008/setupNEMO_ARC2.py:538-566 | the loop logs the prefix of `LoopEvents` the budget allows, ends at the resume year, and is done iff it reached the exit |
| Jobs.Preempted | asf_c86_00008/setupNEMO_ARC2.py:538-566 | a budget that runs out in year y leaves y as the resume year |
| Jobs.LoopDone | asf_c86_00008/setupNEMO_ARC2.py:538-566 | a budget large enough logs the whole loop |
| Jobs.RunPrologue | asf_c86_00008/setupNEMO_ARC2.py:500-525 | the prologue runs in place as its step list |
| Jobs.RunHook | asf_c86_00008/setupNEMO_ARC2.py:513-523 | the hack step runs in place as its step list |
| Jobs.ReplaceDomain | asf_c86_00008/setupNEMO_ARC2.py:517-518 | `rm` and `mv` install the hacked grid |
| Jobs.BuildInstalls | asf_c86_00008/setupNEMO_ARC2.py:502-509 | a built grid moves to the run directory |
| Jobs.BuildMissing | asf_c86_00008/setupNEMO_ARC2.py:504-509 | no built grid stops the job with nothing changed |
| Jobs.HookInstalls | asf_c86_00008/setupNEMO_ARC2.py:513-519 | the hacked grid replaces `domain_cfg.nc` |
| Jobs.HookMissing | asf_c86_00008/setupNEMO_ARC2.py:515-522 | no hacked grid stops the job with nothing changed |
| Jobs.HookedPrologue | asf_c86_00008/setupNEMO_ARC2.py:500-524 | build plus hack ends with the hacked grid as `domain_cfg.nc` and no leftovers |
| Jobs.PrologueFails | asf_c86_00008/setupNEMO_ARC2.py:500-524 | a prologue fails only through a missing tool output |
| Jobs.RunTransition | asf_c86_00008/setupNEMO_ARC2.py:682-697 | the phase transition runs in place as its step list |
| Jobs.SwapKeepsReady | asf_c86_00008/setupNEMO_ARC2.py:684-685 | the output-definition swaps do not disturb the namelists |
| Jobs.TransitionInRunDir | asf_c86_00008/setupNEMO_ARC2.py:682-697 | run from the run directory, the transition succeeds and `namelist_ref` becomes `namelist_cfg` with momentum trends on |
| Jobs.TransitionTail | asf_c86_00008/setupNEMO_ARC2.py:688-697 | the namelist part of the transition, in the run directory |
| Jobs.TransitionOutsideRunDir | asf_c86_00008/setupNEMO_ARC2.py:673-693 | run from another directory, the transition stops at the `namelist_meh` check |
| Jobs.MehStillMissing | asf_c86_00008/setupNEMO_ARC2.py:688-693 | the patch writes into the run directory, so the check elsewhere fails |
| Jobs.TransitionFails | asf_c86_00008/setupNEMO_ARC2.py:682-697 | the transition fails only through a missing tool output |
| Jobs.ReadStateFile | asf_c86_00008/setupNEMO_ARC2.py:627-635 | reading the state in place matches its specification |
| Jobs.RunQuick | asf_c86_00008/setupNEMO_ARC2.py:432-463 | the quick driver runs its prologue and, when that passes, one model run |
| Jobs.RunLong | asf_c86_00008/setupNEMO_ARC2.py:473-569 | the long driver, in place, ends as its specification `LongRun` |
| Jobs.RunProduction | asf_c86_00008/setupNEMO_ARC2.py:574-771 | the production driver, in place, ends as its specification `ProductionRun` |
| Jobs.RunPhases | asf_c86_00008/setupNEMO_ARC2.py:649-768 | both phases, in place, end as their specification |
| Jobs.PhaseOneSome | asf_c86_00008/setupNEMO_ARC2.py:649-706 | a spin-up cut off stops on the time limit; a finished one goes on to the transition |
| Jobs.RunWithoutYear | asf_c86_00008/setupNEMO_ARC2.py:682-767 | with no readable year the job runs the transition; it stops there if the transition fails, and otherwise fails the final check and logs the failure message |
| Jobs.FinishProduction | asf_c86_00008/setupNEMO_ARC2.py:682-768 | the second phase, in place, ends as its specification |
| Jobs.ProductionWithoutYear | asf_c86_00008/setupNEMO_ARC2.py:682-768 | with no readable year the job fails at the transition or the final check, and never runs the model |
| Jobs.LongResumes | asf_c86_00008/setupNEMO_ARC2.py:527-566 | whenever a long job ends with a year, the state file holds it |
| Jobs.LongOutcome | asf_c86_00008/setupNEMO_ARC2.py:527-566 | a long job hits the time limit iff its budget is short of five events per remaining year; a finished one ran each year from its start to YEAR_MAX and ends at `max(start, YEAR_MAX+1)`; a killed one saved a year up to YEAR_MAX and ran no later year |
| Jobs.LongFromYear | asf_c86_00008/setupNEMO_ARC2.py:538-566 | from a start year, the loop finishes iff the budget covers the remaining years, and then every year up to YEAR_MAX ran once |
| Jobs.ProductionResumes | asf_c86_00008/setupNEMO_ARC2.py:628-674 | a production job cut off in spin-up leaves its year in the state file |
| Jobs.PhaseOneResumes | asf_c86_00008/setupNEMO_ARC2.py:628-674 | a spin-up cut off leaves its year in the state file |
| Jobs.PhaseOneSettles | asf_c86_00008/setupNEMO_ARC2.py:628-731 | however a production job that read a year ends (killed in either phase, stopped at the transition's check, or through the final check) the state file reads back as the year it ends with, while the state file and `namelist_meh` are not links |
| Jobs.PhaseTwoSettles | asf_c86_00008/setupNEMO_ARC2.py:706-731 | from a state file holding the spin-up's last year, the second phase ends with the state file holding its own last year |
| Jobs.PhaseOneHeld | asf_c86_00008/setupNEMO_ARC2.py:649-697 | the spin-up's last year is in the state file before and after the transition |
| Jobs.PersistedHeld | asf_c86_00008/setupNEMO_ARC2.py:674 | writing the loop's year keeps the state file a plain file holding that year and changes no other path |
| Jobs.HeldReads | asf_c86_00008/setupNEMO_ARC2.py:628-633 | a plain state file reads back as the year it holds |
| Jobs.TransitionKeeps | asf_c86_00008/setupNEMO_ARC2.py:684-697 | the transition's moves, patch and check leave every other name untouched, as long as `namelist_meh` is not a link |
| Jobs.DiagnosticsKeep | asf_c86_00008/setupNEMO_ARC2.py:688-697 | the patch, check and final move leave every path but `namelist_meh` and `namelist_ref` untouched |
| Jobs.EndingsOutsideLoop | asf_c86_00008/setupNEMO_ARC2.py:740-768 | post-processing and the failure message never occur inside the loop |
| Jobs.ProductionOutcome | asf_c86_00008/setupNEMO_ARC2.py:628-768 | a production job ends normally exactly when it post-processes; it then started no later than YEAR_MAX+1, ran each year from its start to YEAR_MAX once, and ends at YEAR_MAX+1; a wrong final year is reported only for a later start |
| Jobs.ProductionFromYear | asf_c86_00008/setupNEMO_ARC2.py:649-768 | from a read year, both phases keep `ProductionPromise` |
| Jobs.PhaseTwoFrom | asf_c86_00008/setupNEMO_ARC2.py:706-768 | after a finished spin-up, the second phase keeps `ProductionPromise` |
| Dispatch.CaseId | asf_c86_00008/setupNEMO_ARC2.py:798 | the case id has five characters |
| Dispatch.CaseIdPadded | asf_c86_00008/setupNEMO_ARC2.py:798 | case `08` zero-fills to `00008` |
| Dispatch.Plans | asf_c86_00008/setupNEMO_ARC2.py:810-1044 | one configuration per case |
| Dispatch.ConfigErrors | asf_c86_00008/setupNEMO_ARC2.py:820-1044 | only AJTOY and ASF give a configuration; SVM and SR_ML fail on the unset `rP_CONFIG`; other types are refused |
| Dispatch.CampaignRefused | asf_c86_00008/setupNEMO_ARC2.py:1041-1048 | a type without a configuration stops the campaign at the first case with nothing changed |
| Dispatch.AsfPlan | asf_c86_00008/setupNEMO_ARC2.py:936-1024 | an ASF case is `asf_c<NUM>_00008` on 1024 cores, with forcing case `flx`, the hack script, and no ice-shelf removal |
| Dispatch.AsfActiveNamelist | asf_c86_00008/setupNEMO_ARC2.py:1011-1018 | the active ASF namelist has ice shelves off, `ln_hpg_isf` off and the eddy-induced velocity on; other groups are kept |
| Dispatch.AsfDomainNamelist | asf_c86_00008/setupNEMO_ARC2.py:1001-1010 | the ASF grid namelist is 257 by 385 with 75 levels and no ice-shelf cavities |
| Dispatch.AsfRunDirsDistinct | asf_c86_00008/setupNEMO_ARC2.py:810-938 | the five ASF cases stage into five different run directories |
| Dispatch.AsfC86RunDir | asf_c86_00008/setupNEMO_ARC2.py:810-938 | case 86 stages `/work/n02/n02/chbull/nemo/run/asf_c86_00008` |
| Dispatch.AsfC75Parameters | asf_c75_00008/rPARAMS.py:6-17 | the ASF configuration for case 75 writes the manifest that run holds |
| Dispatch.CaseLeavesRunDir | asf_c86_00008/setupNEMO_ARC2.py:1048-1051 | a case that passes preflight leaves its run directory behind, even when staging fails later |
| Dispatch.CaseRefusesRunDir | asf_c86_00008/setupNEMO_ARC2.py:251-253 | a case whose run directory exists fails with nothing changed |
| Dispatch.CaseTwice | asf_c86_00008/setupNEMO_ARC2.py:1048-1051 | staging the same case twice fails the second time and changes nothing |
| Dispatch.AjtoyRepeats | asf_c86_00008/setupNEMO_ARC2.py:885-935 | AJTOY ignores the case number, so the second case collides with the first and the campaign stops there |
| Dispatch.RepeatedFirst | asf_c86_00008/setupNEMO_ARC2.py:810-1054 | a campaign whose second case repeats the first stops at the second case |
| Dispatch.StageAndMesh | asf_c86_00008/setupNEMO_ARC2.py:1048-1051 | one case runs `main` and then `mkmesh` in place, and names the run directory |
| Dispatch.RunCase | asf_c86_00008/setupNEMO_ARC2.py:820-1051 | one case in place: a passing case had a configuration and names its run directory |
| Dispatch.NextCase | asf_c86_00008/setupNEMO_ARC2.py:820-1054 | after case i the tree is the campaign's up to i; a failure is the campaign's end |
| Dispatch.CampaignStep | asf_c86_00008/setupNEMO_ARC2.py:810-1054 | the campaign up to case i+1 extends the one up to i, and a failure ends it |
| Dispatch.StopsThere | asf_c86_00008/setupNEMO_ARC2.py:810-1054 | once a case fails, the rest of the campaign adds nothing |
| Dispatch.Campaign | asf_c86_00008/setupNEMO_ARC2.py:810-1054 | the loop in place ends as the campaign's step list; every submitted directory is a case's run directory in order; all cases are submitted iff none fails |
| Dispatch.Script | asf_c86_00008/setupNEMO_ARC2.py:796-1054 | the script's campaign, in place; it passes iff all five cases were submitted |

## Left out

- Console output (`print`, the `bcolors` colours), the README and `env_rec`
  contents (kept as opaque files), the SBATCH directives, module loads and
  `echo` lines of the drivers, and `chmod u+x`: they do not change what is
  staged or run.
- `sbatch` and the scheduler: `Dispatch.Script` records each submitted run
  directory but does not run the job. The drivers' execution is modelled
  separately in `Jobs`, and the scheduler's time limit there is a budget of
  loop events.
- External programs are parameters: `make_domain_cfg.exe`, the hack script,
  `ncks`/`ncrename`, `preNEMO.py`, `nemo.exe`, `postNEMO.py` and
  `mk_nemo_spinup.py`. Their outputs are given as inputs (which files they
  leave), their exit codes are ignored as in the scripts, and their
  computations are not modelled.
- The namelist library is modelled by its documented effect: a patch merges
  group by group and key by key. Its file format, and floating-point values
  (kept as literal text), are not modelled.
- `pdb.set_trace()` stops the run: for an unknown grid kind in `mkmesh`
  (asf_c86_00008/setupNEMO_ARC2.py:114) and when removing the ice shelf in
  `mkdomcfg` leaves no `bathy_meter.nc` (asf_c86_00008/setupNEMO_ARC2.py:70).
  Both are modelled as failures, since no interactive session follows.
- `cd $cwd` in the drivers is modelled as a parameter `home`, the directory
  the job ends up in. See the finding below.
- YEAR0 (1), YEAR_MAX (100) and the description are parameters of the
  staging request. `Dispatch.Script` binds them to the script's values.
- File metadata that `shutil.copy2` keeps (times and permissions), and links
  to links: only one level of symbolic links is followed. `glob` skips names
  starting with a dot, as Python's does.
- Python's `sorted` on names is modelled as code-point order.
- Concurrency: several jobs sharing the ledger or one state file are not
  modelled. The existence check before `os.mkdir` is not atomic in the
  source either.
- The commented-out alternatives in the source (earlier cases, earlier
  paths, the disabled XML swaps) are not modelled. Only the last assignment
  of each variable counts.
- Fs.Move: `shutil.move` and `mv` onto an existing directory put the file
  inside that directory. The model refuses such a destination with
  `IsADirectory`. Every move in the script and the drivers names the file
  to create (`file_def_nemo-oce.xml`, `field_def_nemo-oce.xml`,
  `namelist_ref`, a patched namelist, `domain_cfg.nc`), so the two differ
  only when a directory already stands under that name.
- Fs.Copy: `shutil.copy2` onto an existing directory writes into it, under
  the source's name. The model refuses such a destination with
  `IsADirectory`. Every copy in the script names the file to create, except
  the template loop's `copy2(f, rP_WORKDIR+'/')`
  (asf_c86_00008/setupNEMO_ARC2.py:317). The model writes that one out as
  a copy onto `rP_WORKDIR/<name>`, which is what copying into the directory
  does.
- Fs.AppendLine: appending to an existing file that holds a namelist, a
  driver script or an opaque blob is refused with `NotText`, because the
  model gives such content no line form; Python would append to it.
- Staging.LedgerAppends: states the ledger only when `rfiles/runme` is
  absent or a text file. The script itself only ever writes the ledger as
  text lines.
- Forcing.ForcingTarget: `FLXFCE[:-3]` on a forcing path whose last
  component is shorter than three characters also cuts into the directory
  part of the text. The model drops at most the last component's own
  characters and keeps the directory. The forcing files the script names
  end in `.nc` after a longer name.
- Fs.MakeDirs: only a link at the path itself is followed. A link among the
  leading components of a path is not, so a path through a linked directory
  counts as absent. The same holds for Fs.Mkdir and Fs.Symlink. The script
  creates directories only under real directories.
- Jobs.StateYear: reads only the one-line `year=<n>` form that the drivers
  write, with `n` in plain decimal. Bash's `source` would also set `$year`
  from a file with more lines or from a number such as `007`. The model
  reads those as no year.
- Integers are unbounded. Years and core counts stay far below bash's and
  Python's limits.
- Setup.OceanCores has no contract of its own. Its value (1024 for ASF) is
  stated by `Dispatch.AsfPlan` and `Manifest.AsfC75Manifest`.
- Dispatch.Script: states how many cases were submitted and the tree they
  leave. The order and names of the submitted directories are stated by
  `Dispatch.Campaign`, which it calls.

## Findings

| source | as written | input that shows it | evidently intended | confidence | as-written member | corrected member |
|---|---|---|---|---|---|---|
| asf_c86_00008/setupNEMO_ARC2.py:527 | the drivers run `cd $cwd`, but nothing sets `$cwd`; bash then changes to `$HOME`. The state file `time.year.step` is read and written there, shared by every run, and the production driver's checks at lines 684-693 look in `$HOME` | any production job: the job's home is not the run directory, so `namelist_meh` (written into the run directory at line 688) is not found at line 689 and the job exits 1 after the spin-up | return to the run directory, where the job was submitted, so that the state file is per run and the transition finds `namelist_meh` | medium: depends on the job's environment; not executed | Jobs.TransitionOutsideRunDir | Jobs.TransitionInRunDir |
