/** `main`: staging a run directory from a template, writing the parameter
    file and the three drivers, and recording the run in the launch ledger.
    Each phase is a list of steps (what it does to the tree, as `Ops` says) and a
    method that performs them on the filesystem in the same order, stopping
    at the first failure as the Python code does when it raises or exits. */
module Staging {
  import opened Paths
  import opened Outcomes
  import opened Text
  import opened Fs
  import opened Ops
  import opened Disk
  import opened Setup
  import opened Forcing
  import Manifest
  import Namelist
  import opened Drivers

  function Ref(q: Request): Path { InRun(q, "namelist_ref") }
  function Cfg(q: Request): Path { InRun(q, "namelist_cfg") }
  function RefNew(q: Request): Path { InRun(q, "namelist_ref_new") }
  function ForcingDir(q: Request): Path { InRun(q, "flxfce") }
  function Production(q: Request): Path { InRun(q, "goNEMOproduction.sh") }

  /** What the production driver holds when the post-processing script is
      missing: the lines written before the check. */
  const PartialProduction: string := "goNEMOproduction.sh up to the post-processing block"

  // ---------------------------------------------------------------------
  // The phases as lists of steps.

  /** The three input files must exist and the run directory must not. */
  function Preflight(q: Request): seq<Op> {
    [RequireExists(q.bfile, Missing(q.bfile)),
     RequireExists(q.tsfile, Missing(q.tsfile)),
     RequireExists(q.nemoExe, Missing(q.nemoExe)),
     RefuseExisting(Workdir(q))]
  }

  /** The run directory, its two records and the model link (`nemo.exe` is
      made relative to the new working directory). */
  function CreateOps(q: Request): seq<Op> {
    [MkdirOp(Workdir(q)),
     WriteOp(InRun(q, "README"), Blob("README")),
     WriteOp(InRun(q, "env_rec"), Blob("env_rec")),
     SymlinkOp(q.nemoExe, InRun(q, "nemo.exe"))]
  }

  function TemplateOps(q: Request): seq<Op> {
    [CopyFlatOp(q.workfol, Workdir(q))]
  }

  /** `FLXFCE != ''`: a forcing file is named (the empty path renders as
      the empty string). */
  predicate HasForcing(q: Request) {
    q.flxfce.Some? && q.flxfce.value != []
  }

  /** The availability checks on the three forcing grids. */
  function ForcingChecks(q: Request): seq<Op> {
    if !HasForcing(q) then []
    else
      var f := q.flxfce.value;
      [RequireExists(ForcingTarget(f, "T"), Missing(ForcingTarget(f, "T"))),
       RequireExists(ForcingTarget(f, "U"), Missing(ForcingTarget(f, "U"))),
       RequireExists(ForcingTarget(f, "V"), Missing(ForcingTarget(f, "V")))]
  }

  /** `np.arange(rP_YEAR0, rP_YEAR_MAX + 52)`: from year0 up to and
      including yearMax + 51. */
  function ForcingEnd(q: Request): int { q.yearMax + 52 }

  function ForcingLinks(q: Request): seq<Op> {
    if HasForcing(q) then ForcingOps(ForcingDir(q), q.flxfce.value, q.year0, ForcingEnd(q)) else []
  }

  /** The ASF namelist and output definition take the generic names, and
      the forcing directory is made. */
  function AsfRenames(q: Request): seq<Op> {
    [MoveOp(InRun(q, "namelist_ref_asf"), Ref(q)),
     MoveOp(InRun(q, "file_def_nemo-oce_spin.xml"), InRun(q, "file_def_nemo-oce.xml")),
     MkdirOp(ForcingDir(q))]
  }

  function AsfHead(q: Request): seq<Op> {
    AsfRenames(q) + ForcingChecks(q)
  }

  /** The reference namelist by configuration type. */
  function SelectOps(q: Request): seq<Op> {
    if q.configType == "AJTOY" then [MoveOp(InRun(q, "namelist_ref_ajtoy"), Ref(q))]
    else if q.configType == "ASF" then AsfHead(q) + ForcingLinks(q)
    else [RemoveOp(InRun(q, "namelist_ref_ajtoy"))]
  }

  /** The optional patch of `namelist_ref`, then `namelist_cfg` as its copy. */
  function PatchOps(q: Request): seq<Op> {
    match q.patch
    case Some(p) =>
      [RequireExists(Ref(q), Missing(Ref(q))),
       PatchOp(Ref(q), p, RefNew(q)),
       MoveOp(RefNew(q), Ref(q)),
       CopyOp(Ref(q), Cfg(q))]
    case None => [CopyOp(Ref(q), Cfg(q))]
  }

  function ReferencePatchOps(q: Request): seq<Op> {
    match q.patch
    case Some(p) =>
      [RequireExists(Ref(q), Missing(Ref(q))),
       PatchOp(Ref(q), p, RefNew(q)),
       MoveOp(RefNew(q), Ref(q))]
    case None => []
  }

  /** The role-named input links, relative to the run directory. */
  function RoleLinks(q: Request): seq<Op> {
    [SymlinkOp(q.bfile, InRun(q, "isf_draft_meter.nc")),
     SymlinkOp(q.bfile, InRun(q, "bathy_meter.nc")),
     SymlinkOp(q.tsfile, InRun(q, "TS_init.nc")),
     SymlinkOp(q.tsfile, InRun(q, "resto.nc"))]
  }

  function ManifestOps(q: Request): seq<Op> {
    [WriteOp(InRun(q, "rPARAMS.py"), Text(Manifest.ManifestLines(q)))]
  }

  /** The drivers; the production driver is opened, and partly written,
      before the check on the post-processing script. */
  function DriverOps(q: Request): seq<Op> {
    ScriptOps(q) + ProductionOps(q)
  }

  function ScriptOps(q: Request): seq<Op> {
    [WriteOp(InRun(q, "goNEMOquick.sh"), Script(DriversFor(q).quick)),
     WriteOp(InRun(q, "goNEMOlong.sh"), Script(DriversFor(q).long))]
  }

  function ProductionOps(q: Request): seq<Op> {
    [WriteOp(Production(q), Blob(PartialProduction)),
     RequireExists(SpinupTool(q), Missing(SpinupTool(q))),
     WriteOp(Production(q), Script(DriversFor(q).production))]
  }

  /** The line each staged run adds to the ledger: `rP_WORKDIR + '/ '`. */
  function LedgerLine(q: Request): string { WorkdirText(q) + "/ " }

  function LedgerOps(q: Request): seq<Op> {
    [MakeDirsOp(LedgerDir(q)),
     WriteIfAbsentOp(LedgerFile(q), Text([Dec(q.yearMax)])),
     AppendOp(LedgerFile(q), LedgerLine(q))]
  }

  /** Everything `main` does, in order. */
  function MainOps(q: Request): seq<Op> {
    Preflight(q) + (CreateOps(q) + (TemplateOps(q) + (SelectOps(q) + (PatchOps(q)
      + (RoleLinks(q) + (ManifestOps(q) + (DriverOps(q) + LedgerOps(q))))))))
  }

  // ---------------------------------------------------------------------
  // The phases as methods on the filesystem.

  method CheckInputs(fs: FileSystem, q: Request) returns (o: Outcome)
    requires fs.Valid()
    modifies fs
    ensures Run(fs.tree, o) == ExecAll(old(fs.tree), Preflight(q))
    ensures fs.cwd == old(fs.cwd) && fs.Valid()
  {
    ghost var rest := Preflight(q);
    o := fs.Step(RequireExists(q.bfile, Missing(q.bfile)), rest);
    if o.Fail? { return; }
    rest := rest[1..];
    o := fs.Step(RequireExists(q.tsfile, Missing(q.tsfile)), rest);
    if o.Fail? { return; }
    rest := rest[1..];
    o := fs.Step(RequireExists(q.nemoExe, Missing(q.nemoExe)), rest);
    if o.Fail? { return; }
    rest := rest[1..];
    o := fs.Step(RefuseExisting(Workdir(q)), rest);
  }

  /** `os.mkdir`, `os.chdir` into the new directory, then the files made
      relative to it. */
  method CreateRunDir(fs: FileSystem, q: Request) returns (o: Outcome)
    requires fs.Valid()
    modifies fs
    ensures Run(fs.tree, o) == ExecAll(old(fs.tree), CreateOps(q))
    ensures o.Pass? ==> fs.cwd == Workdir(q)
    ensures fs.Valid()
  {
    var w := Workdir(q);
    ghost var rest := CreateOps(q);
    ghost var t0 := fs.tree;
    o := fs.Perform(MkdirOp(w));
    assert ExecAll(t0, rest) == if o.Fail? then Run(fs.tree, o) else ExecAll(fs.tree, rest[1..]);
    if o.Fail? { return; }
    rest := rest[1..];
    assert fs.tree == t0[w := Dir];
    var c := fs.Chdir(w);
    assert c.Pass? && fs.cwd == w;
    o := fs.Step(WriteOp(w + ["README"], Blob("README")), rest);
    if o.Fail? { return; }
    rest := rest[1..];
    o := fs.Step(WriteOp(w + ["env_rec"], Blob("env_rec")), rest);
    if o.Fail? { return; }
    rest := rest[1..];
    o := fs.Step(SymlinkOp(q.nemoExe, fs.cwd + ["nemo.exe"]), rest);
  }

  method RenameAsf(fs: FileSystem, q: Request) returns (o: Outcome)
    requires fs.Valid()
    modifies fs
    ensures Run(fs.tree, o) == ExecAll(old(fs.tree), AsfRenames(q))
    ensures fs.cwd == old(fs.cwd) && fs.Valid()
  {
    ghost var rest := AsfRenames(q);
    o := fs.Step(MoveOp(InRun(q, "namelist_ref_asf"), Ref(q)), rest);
    if o.Fail? { return; }
    rest := rest[1..];
    o := fs.Step(MoveOp(InRun(q, "file_def_nemo-oce_spin.xml"), InRun(q, "file_def_nemo-oce.xml")), rest);
    if o.Fail? { return; }
    rest := rest[1..];
    o := fs.Step(MkdirOp(ForcingDir(q)), rest);
  }

  /** The three `assert(os.path.exists(...))` on the forcing grids. */
  method CheckForcing(fs: FileSystem, q: Request) returns (o: Outcome)
    requires fs.Valid()
    modifies fs
    ensures Run(fs.tree, o) == ExecAll(old(fs.tree), ForcingChecks(q))
    ensures fs.cwd == old(fs.cwd) && fs.Valid()
  {
    ForcingChecksRun(fs.tree, q);
    if !HasForcing(q) { return Pass; }
    var f := q.flxfce.value;
    o := RequirePath(fs, ForcingTarget(f, "T"));
    if o.Fail? { return; }
    o := RequirePath(fs, ForcingTarget(f, "U"));
    if o.Fail? { return; }
    o := RequirePath(fs, ForcingTarget(f, "V"));
  }

  /** `assert(os.path.exists(p))`: the tree is left as it is. */
  method RequirePath(fs: FileSystem, p: Path) returns (o: Outcome)
    requires fs.Valid()
    modifies fs
    ensures o == if Exists(old(fs.tree), p) then Pass else Fail(Missing(p))
    ensures fs.tree == old(fs.tree) && fs.cwd == old(fs.cwd) && fs.Valid()
  {
    o := fs.Perform(RequireExists(p, Missing(p)));
  }

  /** The forcing checks stop at the first grid that does not exist and
      change nothing. */
  lemma ForcingChecksRun(t: Tree, q: Request)
    ensures HasForcing(q) ==>
      var f := q.flxfce.value;
      var T, U, V := ForcingTarget(f, "T"), ForcingTarget(f, "U"), ForcingTarget(f, "V");
      ExecAll(t, ForcingChecks(q)) ==
        if !Exists(t, T) then Run(t, Fail(Missing(T)))
        else if !Exists(t, U) then Run(t, Fail(Missing(U)))
        else if !Exists(t, V) then Run(t, Fail(Missing(V)))
        else Run(t, Pass)
    ensures !HasForcing(q) ==> ExecAll(t, ForcingChecks(q)) == Run(t, Pass)
  {
    var ops := ForcingChecks(q);
    if HasForcing(q) {
      var f := q.flxfce.value;
      var T, U, V := ForcingTarget(f, "T"), ForcingTarget(f, "U"), ForcingTarget(f, "V");
      var ops1, ops2 := ops[1..], ops[1..][1..];
      assert ops[0] == RequireExists(T, Missing(T));
      assert ops1[0] == RequireExists(U, Missing(U));
      assert ops2 == [RequireExists(V, Missing(V))];
      if !Exists(t, T) {
        ExecFail(t, ops);
      } else {
        ExecPass(t, ops, t);
        if !Exists(t, U) {
          ExecFail(t, ops1);
        } else {
          ExecPass(t, ops1, t);
          ExecOne(t, ops2[0]);
        }
      }
    }
  }

  method SelectNamelist(fs: FileSystem, q: Request) returns (o: Outcome)
    requires fs.Valid()
    modifies fs
    ensures Run(fs.tree, o) == ExecAll(old(fs.tree), SelectOps(q))
    ensures fs.cwd == old(fs.cwd) && fs.Valid()
  {
    ghost var rest := SelectOps(q);
    if q.configType == "AJTOY" {
      o := fs.Step(MoveOp(InRun(q, "namelist_ref_ajtoy"), Ref(q)), rest);
    } else if q.configType == "ASF" {
      ExecAllAppend(fs.tree, AsfHead(q), ForcingLinks(q));
      ExecAllAppend(fs.tree, AsfRenames(q), ForcingChecks(q));
      o := RenameAsf(fs, q);
      if o.Fail? { return; }
      o := CheckForcing(fs, q);
      if o.Fail? { return; }
      if HasForcing(q) {
        o := LinkForcing(fs, ForcingDir(q), q.flxfce.value, q.year0, ForcingEnd(q));
      }
    } else {
      o := fs.Step(RemoveOp(InRun(q, "namelist_ref_ajtoy")), rest);
    }
  }

  method PatchAndActivate(fs: FileSystem, q: Request) returns (o: Outcome)
    requires fs.Valid()
    modifies fs
    ensures Run(fs.tree, o) == ExecAll(old(fs.tree), PatchOps(q))
    ensures fs.cwd == old(fs.cwd) && fs.Valid()
  {
    var copy := CopyOp(Ref(q), Cfg(q));
    assert PatchOps(q) == ReferencePatchOps(q) + [copy];
    ExecAllAppend(fs.tree, ReferencePatchOps(q), [copy]);
    o := PatchReference(fs, q);
    if o.Fail? { return; }
    o := fs.Step(copy, [copy]);
  }

  /** The steps before the copy: check, patch and rename the reference
      namelist when a patch is given; nothing otherwise. */
  method PatchReference(fs: FileSystem, q: Request) returns (o: Outcome)
    requires fs.Valid()
    modifies fs
    ensures Run(fs.tree, o) == ExecAll(old(fs.tree), ReferencePatchOps(q))
    ensures fs.cwd == old(fs.cwd) && fs.Valid()
  {
    ghost var rest := ReferencePatchOps(q);
    if q.patch.Some? {
      o := fs.Step(RequireExists(Ref(q), Missing(Ref(q))), rest);
      if o.Fail? { return; }
      rest := rest[1..];
      o := fs.Step(PatchOp(Ref(q), q.patch.value, RefNew(q)), rest);
      if o.Fail? { return; }
      rest := rest[1..];
      assert rest[1..] == [];
      o := fs.Step(MoveOp(RefNew(q), Ref(q)), rest);
    } else {
      o := Pass;
    }
  }

  /** The input links, made relative to the working directory. */
  method LinkInputs(fs: FileSystem, q: Request) returns (o: Outcome)
    requires fs.Valid() && fs.cwd == Workdir(q)
    modifies fs
    ensures Run(fs.tree, o) == ExecAll(old(fs.tree), RoleLinks(q))
    ensures fs.cwd == old(fs.cwd) && fs.Valid()
  {
    ghost var rest := RoleLinks(q);
    o := fs.Step(SymlinkOp(q.bfile, fs.cwd + ["isf_draft_meter.nc"]), rest);
    if o.Fail? { return; }
    rest := rest[1..];
    o := fs.Step(SymlinkOp(q.bfile, fs.cwd + ["bathy_meter.nc"]), rest);
    if o.Fail? { return; }
    rest := rest[1..];
    o := fs.Step(SymlinkOp(q.tsfile, fs.cwd + ["TS_init.nc"]), rest);
    if o.Fail? { return; }
    rest := rest[1..];
    o := fs.Step(SymlinkOp(q.tsfile, fs.cwd + ["resto.nc"]), rest);
  }

  method WriteScripts(fs: FileSystem, q: Request) returns (o: Outcome)
    requires fs.Valid()
    modifies fs
    ensures Run(fs.tree, o) == ExecAll(old(fs.tree), ScriptOps(q))
    ensures fs.cwd == old(fs.cwd) && fs.Valid()
  {
    var ds := DriversFor(q);
    ghost var rest := ScriptOps(q);
    o := fs.Step(WriteOp(InRun(q, "goNEMOquick.sh"), Script(ds.quick)), rest);
    if o.Fail? { return; }
    rest := rest[1..];
    o := fs.Step(WriteOp(InRun(q, "goNEMOlong.sh"), Script(ds.long)), rest);
  }

  /** The production driver, whose file is already open and partly written
      when `main` asserts that the post-processing script exists. */
  method WriteProduction(fs: FileSystem, q: Request) returns (o: Outcome)
    requires fs.Valid()
    modifies fs
    ensures Run(fs.tree, o) == ExecAll(old(fs.tree), ProductionOps(q))
    ensures fs.cwd == old(fs.cwd) && fs.Valid()
  {
    ghost var rest := ProductionOps(q);
    o := fs.Step(WriteOp(Production(q), Blob(PartialProduction)), rest);
    if o.Fail? { return; }
    rest := rest[1..];
    o := fs.Step(RequireExists(SpinupTool(q), Missing(SpinupTool(q))), rest);
    if o.Fail? { return; }
    rest := rest[1..];
    o := fs.Step(WriteOp(Production(q), Script(DriversFor(q).production)), rest);
  }

  method WriteDrivers(fs: FileSystem, q: Request) returns (o: Outcome)
    requires fs.Valid()
    modifies fs
    ensures Run(fs.tree, o) == ExecAll(old(fs.tree), DriverOps(q))
    ensures fs.cwd == old(fs.cwd) && fs.Valid()
  {
    ExecAllAppend(fs.tree, ScriptOps(q), ProductionOps(q));
    o := WriteScripts(fs, q);
    if o.Fail? { return; }
    o := WriteProduction(fs, q);
  }

  /** The `mkdir` helper on `rfiles/`, the header line when the ledger is
      new, then the run's own line in append mode. */
  method RecordLedger(fs: FileSystem, q: Request) returns (o: Outcome)
    requires fs.Valid()
    modifies fs
    ensures Run(fs.tree, o) == ExecAll(old(fs.tree), LedgerOps(q))
    ensures fs.cwd == old(fs.cwd) && fs.Valid()
  {
    var ops := LedgerOps(q);
    // the ledger directory, made with its parents
    o := fs.Step(ops[0], ops);
    if o.Fail? { return; }
    // the ledger file, headed by `rP_YEAR_MAX`, unless it exists
    o := fs.Step(ops[1], ops[1..]);
    if o.Fail? { return; }
    // the run directory's line
    o := fs.Step(ops[2], ops[2..]);
    assert ops[2..][1..] == [];
  }

  /** `main`: returns the run directory; on success the process is left in
      it. */
  method StageRun(fs: FileSystem, q: Request) returns (o: Outcome, w: Path)
    requires fs.Valid()
    modifies fs
    ensures w == Workdir(q)
    ensures Run(fs.tree, o) == ExecAll(old(fs.tree), MainOps(q))
    ensures o.Pass? ==> fs.cwd == Workdir(q)
    ensures fs.Valid()
  {
    w := Workdir(q);
    ghost var a6 := DriverOps(q) + LedgerOps(q);
    ghost var a5 := ManifestOps(q) + a6;
    ghost var a4 := RoleLinks(q) + a5;
    ghost var a3 := PatchOps(q) + a4;
    ghost var a2 := SelectOps(q) + a3;
    ghost var a1 := TemplateOps(q) + a2;
    ghost var a0 := CreateOps(q) + a1;
    assert MainOps(q) == Preflight(q) + a0;

    ghost var goal := ExecAll(fs.tree, MainOps(q));
    ExecAllAppend(fs.tree, Preflight(q), a0);
    o := CheckInputs(fs, q);
    if o.Fail? { return; }
    assert goal == ExecAll(fs.tree, a0);

    ExecAllAppend(fs.tree, CreateOps(q), a1);
    o := CreateRunDir(fs, q);
    if o.Fail? { return; }
    assert goal == ExecAll(fs.tree, a1);
    assert fs.cwd == w;

    ExecAllAppend(fs.tree, TemplateOps(q), a2);
    o := fs.CopyTemplate(q.workfol, w);
    if o.Fail? { return; }
    assert goal == ExecAll(fs.tree, a2);

    ExecAllAppend(fs.tree, SelectOps(q), a3);
    o := SelectNamelist(fs, q);
    if o.Fail? { return; }
    assert goal == ExecAll(fs.tree, a3);

    ExecAllAppend(fs.tree, PatchOps(q), a4);
    o := PatchAndActivate(fs, q);
    if o.Fail? { return; }
    assert goal == ExecAll(fs.tree, a4);

    ExecAllAppend(fs.tree, RoleLinks(q), a5);
    o := LinkInputs(fs, q);
    if o.Fail? { return; }
    assert goal == ExecAll(fs.tree, a5);

    assert a5[0] == WriteOp(InRun(q, "rPARAMS.py"), Text(Manifest.ManifestLines(q))) && a5[1..] == a6;
    o := fs.Step(WriteOp(InRun(q, "rPARAMS.py"), Text(Manifest.ManifestLines(q))), a5);
    if o.Fail? { return; }
    assert goal == ExecAll(fs.tree, a6);

    ExecAllAppend(fs.tree, DriverOps(q), LedgerOps(q));
    o := WriteDrivers(fs, q);
    if o.Fail? { return; }
    o := RecordLedger(fs, q);
  }

  // ---------------------------------------------------------------------
  // What each phase does.

  /** The checks before anything is created: the three inputs in order,
      then the run directory. They never change the tree. */
  lemma PreflightResult(t: Tree, q: Request)
    ensures ExecAll(t, Preflight(q)).tree == t
    ensures ExecAll(t, Preflight(q)).outcome ==
      if !Exists(t, q.bfile) then Fail(Missing(q.bfile))
      else if !Exists(t, q.tsfile) then Fail(Missing(q.tsfile))
      else if !Exists(t, q.nemoExe) then Fail(Missing(q.nemoExe))
      else if Exists(t, Workdir(q)) then Fail(DirectoryConflict(Workdir(q)))
      else Pass
  {
    var ops := Preflight(q);
    assert ops[1..][1..] == ops[2..] && ops[2..][1..] == ops[3..] && ops[3..] == [ops[3]];
    ExecOne(t, ops[3]);
    if Exists(t, q.bfile) {
      ExecPass(t, ops, t);
      if Exists(t, q.tsfile) {
        ExecPass(t, ops[1..], t);
        if Exists(t, q.nemoExe) {
          ExecPass(t, ops[2..], t);
        } else {
          ExecFail(t, ops[2..]);
        }
      } else {
        ExecFail(t, ops[1..]);
      }
    } else {
      ExecFail(t, ops);
    }
  }

  /** A successful `main` leaves its run directory in the tree: it is
      created right after the checks and no later step removes a
      directory. */
  lemma StagedDirExists(t: Tree, q: Request)
    requires ExecAll(t, MainOps(q)).outcome.Pass?
    ensures DirAt(ExecAll(t, MainOps(q)).tree, Workdir(q))
  {
    var rest := TemplateOps(q) + (SelectOps(q) + (PatchOps(q)
      + (RoleLinks(q) + (ManifestOps(q) + (DriverOps(q) + LedgerOps(q))))));
    MadeDirKept(t, Preflight(q), CreateOps(q), rest, Workdir(q));
  }

  /** A list that passed and made a directory along the way still has it
      at the end. */
  lemma MadeDirKept(t: Tree, pre: seq<Op>, c: seq<Op>, rest: seq<Op>, w: Path)
    requires c != [] && c[0] == MkdirOp(w)
    requires ExecAll(t, pre + (c + rest)).outcome.Pass?
    ensures DirAt(ExecAll(t, pre + (c + rest)).tree, w)
  {
    ExecAllAppend(t, pre, c + rest);
    var u := ExecAll(t, pre).tree;
    ExecAllAppend(u, c, rest);
    assert c == [c[0]] + c[1..];
    ExecAllAppend(u, [c[0]], c[1..]);
    ExecOne(u, c[0]);
  }

  /** A failed check ends the staging with the tree as it was. */
  lemma MainStopsOnPreflight(t: Tree, q: Request)
    requires ExecAll(t, Preflight(q)).outcome.Fail?
    ensures ExecAll(t, MainOps(q)) == Run(t, ExecAll(t, Preflight(q)).outcome)
  {
    PreflightResult(t, q);
    ExecAllAppend(t, Preflight(q), MainOps(q)[|Preflight(q)|..]);
    assert MainOps(q) == Preflight(q) + MainOps(q)[|Preflight(q)|..];
  }

  /** An existing run directory stops the staging and nothing is created or
      changed. */
  lemma RunDirConflict(t: Tree, q: Request)
    requires Exists(t, q.bfile) && Exists(t, q.tsfile) && Exists(t, q.nemoExe)
    requires Exists(t, Workdir(q))
    ensures ExecAll(t, MainOps(q)) == Run(t, Fail(DirectoryConflict(Workdir(q))))
  {
    PreflightResult(t, q);
    MainStopsOnPreflight(t, q);
  }

  /** The tree once the run directory is made: the directory, its two
      records and the model link. */
  function Created(t: Tree, q: Request): Tree {
    t[Workdir(q) := Dir]
     [InRun(q, "README") := File(Blob("README"))]
     [InRun(q, "env_rec") := File(Blob("env_rec"))]
     [InRun(q, "nemo.exe") := Link(q.nemoExe)]
  }

  /** Into an absent name under an existing `RDIR`, the run directory and its
      three entries are created and nothing else changes. */
  lemma CreateExact(t: Tree, q: Request)
    requires WellFormed(t) && Workdir(q) !in t && DirAt(t, RunRoot)
    ensures ExecAll(t, CreateOps(q)) == Run(Created(t, q), Pass)
    ensures WellFormed(Created(t, q)) && DirAt(Created(t, q), Workdir(q))
  {
    var w := Workdir(q);
    NothingBelowAbsent(t, w);
    var readme, env, exe := InRun(q, "README"), InRun(q, "env_rec"), InRun(q, "nemo.exe");
    assert Below(readme, w) && Below(env, w) && Below(exe, w);
    var t1 := t[w := Dir];
    var t2 := t1[readme := File(Blob("README"))];
    var t3 := t2[env := File(Blob("env_rec"))];
    assert readme != env && readme != exe && env != exe by {
      assert readme[|w|] == "README" && env[|w|] == "env_rec" && exe[|w|] == "nemo.exe";
    }
    var ops := CreateOps(q);
    assert ops[1..] == [ops[1], ops[2], ops[3]] && ops[1..][1..] == [ops[2], ops[3]] && ops[1..][1..][1..] == [ops[3]];
    assert Exec(t, ops[0]) == Run(t1, Pass);
    ExecPass(t, ops, t1);
    WriteFresh(t1, readme, Blob("README"));
    ExecPass(t1, ops[1..], t2);
    WriteFresh(t2, env, Blob("env_rec"));
    ExecPass(t2, ops[1..][1..], t3);
    assert Exec(t3, ops[3]) == Run(Created(t, q), Pass);
    ExecOne(t3, ops[3]);
  }

  /** Writing a name that does not exist yet, in an existing directory. */
  lemma WriteFresh(t: Tree, p: Path, c: Content)
    requires p !in t && p != [] && DirAt(t, Parent(p))
    ensures Exec(t, WriteOp(p, c)) == Run(t[p := File(c)], Pass)
  {
  }

  /** The name taken, even by a dangling link (which the existence check
      does not see), or `RDIR` missing: `os.mkdir` raises and nothing is
      created. */
  lemma CreateFails(t: Tree, q: Request)
    requires Workdir(q) in t || !DirAt(t, RunRoot)
    ensures ExecAll(t, CreateOps(q)) ==
      Run(t, Fail(if Workdir(q) in t then AlreadyExists(Workdir(q)) else NoParent(Workdir(q))))
  {
  }

  /** After the run directory is made, the template copy is exact as long
      as the template is not `RDIR` itself, holds none of the three fresh
      names and has no link pointing into the run directory. */
  lemma TemplateIntoRunDir(t: Tree, q: Request)
    requires WellFormed(t) && Workdir(q) !in t && DirAt(t, RunRoot)
    requires DirAt(t, q.workfol) && q.workfol != RunRoot
    requires q.workfol + ["README"] !in t && q.workfol + ["env_rec"] !in t && q.workfol + ["nemo.exe"] !in t
    requires forall n :: q.workfol + [n] in t && t[q.workfol + [n]].Link? ==> !Below(t[q.workfol + [n]].target, Workdir(q))
    ensures FreshCopy(Created(t, q), q.workfol, Workdir(q))
  {
    var w, u, src := Workdir(q), Created(t, q), q.workfol;
    CreateExact(t, q);
    NothingBelowAbsent(t, w);
    assert src != w;
    assert !Below(src, w);
    forall n | src + [n] in u ensures src + [n] in t && u[src + [n]] == t[src + [n]] {
      NewEntries(t, q, src + [n]);
    }
    forall n | src + [n] in u ensures w + [n] !in u {
      NewEntries(t, q, w + [n]);
      assert (w + [n])[..|w|] == w;
    }
  }

  /** The only entries `Created` adds are the run directory and what lies
      directly in it; the template's own entries are not among them. */
  lemma NewEntries(t: Tree, q: Request, p: Path)
    requires q.workfol != RunRoot && Workdir(q) !in t && DirAt(t, q.workfol)
    requires p != []
    ensures Parent(p) == q.workfol && p in Created(t, q) ==> p in t && Created(t, q)[p] == t[p]
    ensures Parent(p) == Workdir(q) && p in Created(t, q) ==>
              p in t || p[|p| - 1] == "README" || p[|p| - 1] == "env_rec" || p[|p| - 1] == "nemo.exe"
  {
    var w := Workdir(q);
    if Parent(p) == q.workfol && p in Created(t, q) {
      assert p != w by { assert Parent(w) == RunRoot; }
      assert q.workfol != w;
      assert Parent(InRun(q, "README")) == w && Parent(InRun(q, "env_rec")) == w && Parent(InRun(q, "nemo.exe")) == w;
    }
    if Parent(p) == w && p in Created(t, q) && p !in t {
      assert p != w;
      assert p == InRun(q, "README") || p == InRun(q, "env_rec") || p == InRun(q, "nemo.exe");
    }
  }

  /** Hence the template step stages exactly the template's top-level regular
      files, each under its own name, and nothing else; a template with no
      visible entry is fatal. */
  lemma TemplateCopyExact(t: Tree, q: Request)
    requires WellFormed(t) && Workdir(q) !in t && DirAt(t, RunRoot)
    requires DirAt(t, q.workfol) && q.workfol != RunRoot
    requires q.workfol + ["README"] !in t && q.workfol + ["env_rec"] !in t && q.workfol + ["nemo.exe"] !in t
    requires forall n :: q.workfol + [n] in t && t[q.workfol + [n]].Link? ==> !Below(t[q.workfol + [n]].target, Workdir(q))
    ensures var u := Created(t, q); var names := Glob(u, q.workfol);
      ExecAll(u, TemplateOps(q)) ==
        if names == [] then Run(u, Fail(EmptyGlob(q.workfol)))
        else Run(u + CopiedFiles(u, q.workfol, Workdir(q), names), Pass)
  {
    TemplateIntoRunDir(t, q);
    FlatCopyExact(Created(t, q), q.workfol, Workdir(q));
    ExecCopyFlat(Created(t, q), q.workfol, Workdir(q));
  }

  /** AJTOY: `namelist_ref_ajtoy` becomes `namelist_ref`; `shutil.move`
      raises when it is missing. */
  lemma SelectAjtoy(u: Tree, q: Request)
    requires q.configType == "AJTOY"
    ensures var a, r := InRun(q, "namelist_ref_ajtoy"), ExecAll(u, SelectOps(q));
      && (a !in u ==> r == Run(u, Fail(Missing(a))))
      && (a in u && !u[a].Dir? && !DirAt(u, Ref(q)) && DirAt(u, Workdir(q)) ==>
            r == Run((u - {a})[Ref(q) := u[a]], Pass))
  {
    ExecOne(u, MoveOp(InRun(q, "namelist_ref_ajtoy"), Ref(q)));
  }

  /** Any type but AJTOY and ASF: `namelist_ref_ajtoy` is deleted, and
      `os.remove` raises when it is missing. */
  lemma SelectOther(u: Tree, q: Request)
    requires q.configType != "AJTOY" && q.configType != "ASF"
    ensures var a, r := InRun(q, "namelist_ref_ajtoy"), ExecAll(u, SelectOps(q));
      && (a !in u ==> r == Run(u, Fail(Missing(a))))
      && (a in u && !u[a].Dir? ==> r == Run(u - {a}, Pass))
  {
    ExecOne(u, RemoveOp(InRun(q, "namelist_ref_ajtoy")));
  }

  /** The tree after the ASF renames and `mkdir(flxfce/)`. */
  function AsfRenamed(u: Tree, q: Request): Tree
    requires InRun(q, "namelist_ref_asf") in u && InRun(q, "file_def_nemo-oce_spin.xml") in u
  {
    var a, x := InRun(q, "namelist_ref_asf"), InRun(q, "file_def_nemo-oce_spin.xml");
    var u1 := (u - {a})[Ref(q) := u[a]];
    ((u1 - {x})[InRun(q, "file_def_nemo-oce.xml") := u[x]])[ForcingDir(q) := Dir]
  }

  /** With both ASF files present and `flxfce/` new, the renames succeed,
      leave `flxfce/` an empty directory, and the rest of the selection is
      the forcing checks and links on that tree. */
  lemma AsfRenamesExact(u: Tree, q: Request)
    requires q.configType == "ASF"
    requires WellFormed(u) && DirAt(u, Workdir(q))
    requires InRun(q, "namelist_ref_asf") in u && !u[InRun(q, "namelist_ref_asf")].Dir?
    requires InRun(q, "file_def_nemo-oce_spin.xml") in u && !u[InRun(q, "file_def_nemo-oce_spin.xml")].Dir?
    requires !DirAt(u, Ref(q)) && !DirAt(u, InRun(q, "file_def_nemo-oce.xml")) && ForcingDir(q) !in u
    ensures ExecAll(u, AsfRenames(q)) == Run(AsfRenamed(u, q), Pass)
    ensures ExecAll(u, SelectOps(q)) == ExecAll(AsfRenamed(u, q), ForcingChecks(q) + ForcingLinks(q))
    ensures var v := AsfRenamed(u, q);
      WellFormed(v) && DirAt(v, ForcingDir(q)) && forall x :: x in v ==> !Below(x, ForcingDir(q))
  {
    AsfRenamesRun(u, q);
    AsfSelectSplit(u, q);
    AsfRenamedEmpty(u, q);
  }

  /** The 'ASF' selection is the renames, then the checks and links on the
      tree the renames leave, unless a rename fails. */
  lemma AsfSelectSplit(u: Tree, q: Request)
    requires q.configType == "ASF"
    ensures ExecAll(u, SelectOps(q)) ==
      var r := ExecAll(u, AsfRenames(q));
      if r.outcome.Fail? then r else ExecAll(r.tree, ForcingChecks(q) + ForcingLinks(q))
  {
    var ops := AsfRenames(q);
    ExecAllAppend(u, ops, ForcingChecks(q) + ForcingLinks(q));
    assert SelectOps(q) == ops + (ForcingChecks(q) + ForcingLinks(q));
  }

  lemma AsfRenamesRun(u: Tree, q: Request)
    requires DirAt(u, Workdir(q))
    requires InRun(q, "namelist_ref_asf") in u && !u[InRun(q, "namelist_ref_asf")].Dir?
    requires InRun(q, "file_def_nemo-oce_spin.xml") in u && !u[InRun(q, "file_def_nemo-oce_spin.xml")].Dir?
    requires !DirAt(u, Ref(q)) && !DirAt(u, InRun(q, "file_def_nemo-oce.xml")) && ForcingDir(q) !in u
    ensures ExecAll(u, AsfRenames(q)) == Run(AsfRenamed(u, q), Pass)
  {
    var w, a, x, d, fd := Workdir(q), InRun(q, "namelist_ref_asf"), InRun(q, "file_def_nemo-oce_spin.xml"),
                          InRun(q, "file_def_nemo-oce.xml"), ForcingDir(q);
    assert a[|w|] == "namelist_ref_asf" && x[|w|] == "file_def_nemo-oce_spin.xml" && d[|w|] == "file_def_nemo-oce.xml";
    assert fd[|w|] == "flxfce" && Ref(q)[|w|] == "namelist_ref";
    var u1 := (u - {a})[Ref(q) := u[a]];
    var u2 := (u1 - {x})[d := u[x]];
    var ops := AsfRenames(q);
    assert ops[1..][1..] == [ops[2]];
    MoveInto(u, a, Ref(q));
    ExecPass(u, ops, u1);
    assert u1[x] == u[x];
    MoveInto(u1, x, d);
    ExecPass(u1, ops[1..], u2);
    ExecOne(u2, ops[2]);
  }

  /** `flxfce/` right after it was made holds nothing. */
  lemma AsfRenamedEmpty(u: Tree, q: Request)
    requires WellFormed(u) && ForcingDir(q) !in u
    requires InRun(q, "namelist_ref_asf") in u && InRun(q, "file_def_nemo-oce_spin.xml") in u
    requires ExecAll(u, AsfRenames(q)) == Run(AsfRenamed(u, q), Pass)
    ensures var v := AsfRenamed(u, q);
      WellFormed(v) && DirAt(v, ForcingDir(q)) && forall x :: x in v ==> !Below(x, ForcingDir(q))
  {
    var v, fd, d := AsfRenamed(u, q), ForcingDir(q), InRun(q, "file_def_nemo-oce.xml");
    NothingBelowAbsent(u, fd);
    forall y | y in v ensures !Below(y, fd) {
      if y == Ref(q) || y == d || y == fd {
        assert |y| == |fd|;
      }
    }
  }

  /** `shutil.move` of a file or link onto a name that is not a directory,
      in a directory that exists. */
  lemma MoveInto(t: Tree, src: Path, dst: Path)
    requires src in t && !t[src].Dir? && !DirAt(t, dst) && dst != [] && DirAt(t, Parent(dst))
    ensures Exec(t, MoveOp(src, dst)) == Run((t - {src})[dst := t[src]], Pass)
  {
  }

  /** The first missing forcing grid, if any. */
  function MissingGrid(v: Tree, f: Path): Option<Path>
    requires f != []
  {
    if !Exists(v, ForcingTarget(f, "T")) then Some(ForcingTarget(f, "T"))
    else if !Exists(v, ForcingTarget(f, "U")) then Some(ForcingTarget(f, "U"))
    else if !Exists(v, ForcingTarget(f, "V")) then Some(ForcingTarget(f, "V"))
    else None
  }

  /** The three grid checks: a missing grid is fatal before any link is made. */
  lemma ForcingChecksResult(v: Tree, q: Request)
    requires HasForcing(q)
    ensures var m, r := MissingGrid(v, q.flxfce.value), ExecAll(v, ForcingChecks(q));
      r.tree == v && (r.outcome.Pass? <==> m.None?) && (m.Some? ==> r.outcome == Fail(Missing(m.value)))
  {
    var f, ops := q.flxfce.value, ForcingChecks(q);
    assert ops[1..][1..] == [ops[2]];
    ExecOne(v, ops[2]);
    if Exists(v, ForcingTarget(f, "T")) {
      ExecPass(v, ops, v);
      if Exists(v, ForcingTarget(f, "U")) {
        ExecPass(v, ops[1..], v);
      } else {
        ExecFail(v, ops[1..]);
      }
    } else {
      ExecFail(v, ops);
    }
  }

  lemma ForcingGridMissing(v: Tree, q: Request)
    requires HasForcing(q) && MissingGrid(v, q.flxfce.value).Some?
    ensures ExecAll(v, ForcingChecks(q) + ForcingLinks(q)) == Run(v, Fail(Missing(MissingGrid(v, q.flxfce.value).value)))
  {
    ForcingChecksResult(v, q);
    ExecAllAppend(v, ForcingChecks(q), ForcingLinks(q));
  }

  /** ASF with a forcing file: once the three grids exist, the loop makes
      exactly 3 * (YEAR_MAX + 52 - YEAR0) links, one per grid and year from
      YEAR0 to YEAR_MAX + 51, each under its own name in `flxfce/` and
      pointing at its grid's file, and changes nothing else. */
  lemma ForcingStaged(v: Tree, q: Request)
    requires HasForcing(q) && MissingGrid(v, q.flxfce.value).None?
    requires DirAt(v, ForcingDir(q)) && forall x :: x in v ==> !Below(x, ForcingDir(q))
    ensures |ForcingLinks(q)| == if q.year0 < ForcingEnd(q) then 3 * (q.yearMax + 52 - q.year0) else 0
    ensures var f, r := q.flxfce.value, ExecAll(v, ForcingChecks(q) + ForcingLinks(q));
      && r.outcome.Pass?
      && (forall j, z :: 0 <= j < 3 && q.year0 <= z <= q.yearMax + 51 ==>
            ForcingDir(q) + [ForcingName(Role(j), z)] in r.tree &&
            r.tree[ForcingDir(q) + [ForcingName(Role(j), z)]] == Link(ForcingTarget(f, Role(j))))
      && (forall p :: (forall j, z :: 0 <= j < 3 && q.year0 <= z <= q.yearMax + 51 ==> p != ForcingDir(q) + [ForcingName(Role(j), z)]) ==>
            At(r.tree, p) == At(v, p))
  {
    var f := q.flxfce.value;
    ForcingCount(ForcingDir(q), f, q.year0, ForcingEnd(q));
    ForcingChecksResult(v, q);
    ExecAllAppend(v, ForcingChecks(q), ForcingLinks(q));
    ForcingLinksExact(v, ForcingDir(q), f, q.year0, ForcingEnd(q));
  }

  /** The namelist `namelist_ref` ends up with: the patched document when a
      patch is given, the original otherwise. */
  function ActiveDoc(q: Request, d: Namelist.Doc): Namelist.Doc {
    if q.patch.Some? then Namelist.Apply(d, q.patch.value) else d
  }

  /** The patch is applied only when there is one (an empty patch still
      rewrites the file); `namelist_cfg` is then a copy of the resulting
      `namelist_ref`, the intermediate file is gone, and nothing else
      changes. */
  lemma PatchThenActivate(v: Tree, q: Request, d: Namelist.Doc)
    requires DirAt(v, Workdir(q)) && Ref(q) in v && v[Ref(q)] == File(Nml(d))
    requires Cfg(q) !in v || v[Cfg(q)].File?
    requires RefNew(q) !in v || v[RefNew(q)].File?
    ensures var r, doc := ExecAll(v, PatchOps(q)), ActiveDoc(q, d);
      && r.outcome.Pass?
      && Ref(q) in r.tree && r.tree[Ref(q)] == File(Nml(doc))
      && Cfg(q) in r.tree && r.tree[Cfg(q)] == File(Nml(doc))
      && (q.patch.Some? ==> RefNew(q) !in r.tree)
      && (forall p :: p != Ref(q) && p != Cfg(q) && p != RefNew(q) ==> At(r.tree, p) == At(v, p))
  {
    var w := Workdir(q);
    assert Ref(q)[|w|] == "namelist_ref" && Cfg(q)[|w|] == "namelist_cfg" && RefNew(q)[|w|] == "namelist_ref_new";
    if q.patch.Some? {
      PatchSteps(v, q, d);
    } else {
      CopyOver(v, Ref(q), Cfg(q));
      ExecOne(v, PatchOps(q)[0]);
    }
  }

  lemma PatchSteps(v: Tree, q: Request, d: Namelist.Doc)
    requires q.patch.Some?
    requires DirAt(v, Workdir(q)) && Ref(q) in v && v[Ref(q)] == File(Nml(d))
    requires Cfg(q) !in v || v[Cfg(q)].File?
    requires RefNew(q) !in v || v[RefNew(q)].File?
    ensures ExecAll(v, PatchOps(q)) ==
      Run((v - {RefNew(q)})[Ref(q) := File(Nml(ActiveDoc(q, d)))][Cfg(q) := File(Nml(ActiveDoc(q, d)))], Pass)
  {
    var w, ref, cfg, nw := Workdir(q), Ref(q), Cfg(q), RefNew(q);
    assert ref[|w|] == "namelist_ref" && cfg[|w|] == "namelist_cfg" && nw[|w|] == "namelist_ref_new";
    var ops := PatchOps(q);
    var doc := ActiveDoc(q, d);
    var v1 := v[nw := File(Nml(doc))];
    var v2 := (v1 - {nw})[ref := File(Nml(doc))];
    assert v1 - {nw} == v - {nw};
    assert ops[1..][1..] == [ops[2], ops[3]] && ops[1..][1..][1..] == [ops[3]];
    ExecPass(v, ops, v);
    PatchInto(v, ref, q.patch.value, nw, d);
    ExecPass(v, ops[1..], v1);
    MoveInto(v1, nw, ref);
    ExecPass(v1, ops[1..][1..], v2);
    CopyOver(v2, ref, cfg);
    ExecOne(v2, ops[3]);
  }

  /** The patch library on a namelist file, writing a name that is not a
      link or a directory. */
  lemma PatchInto(t: Tree, src: Path, p: Namelist.Patch, out: Path, d: Namelist.Doc)
    requires src in t && t[src] == File(Nml(d))
    requires out != [] && DirAt(t, Parent(out)) && (out !in t || t[out].File?)
    ensures Exec(t, PatchOp(src, p, out)) == Run(t[out := File(Nml(Namelist.Apply(d, p)))], Pass)
  {
  }

  /** `shutil.copy2` of a regular file over a name that is not a link or a
      directory. */
  lemma CopyOver(t: Tree, src: Path, dst: Path)
    requires src in t && t[src].File? && src != dst
    requires dst != [] && DirAt(t, Parent(dst)) && (dst !in t || t[dst].File?)
    ensures Exec(t, CopyOp(src, dst)) == Run(t[dst := t[src]], Pass)
  {
  }

  /** Without `namelist_ref` both the patch and the copy raise. */
  lemma PatchMissingRef(v: Tree, q: Request)
    requires Ref(q) !in v
    ensures ExecAll(v, PatchOps(q)) == Run(v, Fail(Missing(Ref(q))))
  {
    ExecFail(v, PatchOps(q));
  }

  /** The input files under their role names, when none of the names is
      taken. */
  lemma RoleLinksExact(v: Tree, q: Request)
    requires DirAt(v, Workdir(q))
    requires InRun(q, "isf_draft_meter.nc") !in v && InRun(q, "bathy_meter.nc") !in v
    requires InRun(q, "TS_init.nc") !in v && InRun(q, "resto.nc") !in v
    ensures ExecAll(v, RoleLinks(q)) ==
      Run(v[InRun(q, "isf_draft_meter.nc") := Link(q.bfile)][InRun(q, "bathy_meter.nc") := Link(q.bfile)]
           [InRun(q, "TS_init.nc") := Link(q.tsfile)][InRun(q, "resto.nc") := Link(q.tsfile)], Pass)
  {
    var w, a, b, c, e := Workdir(q), InRun(q, "isf_draft_meter.nc"), InRun(q, "bathy_meter.nc"),
                         InRun(q, "TS_init.nc"), InRun(q, "resto.nc");
    assert a[|w|] == "isf_draft_meter.nc" && b[|w|] == "bathy_meter.nc" && c[|w|] == "TS_init.nc" && e[|w|] == "resto.nc";
    var v1 := v[a := Link(q.bfile)];
    var v2 := v1[b := Link(q.bfile)];
    var v3 := v2[c := Link(q.tsfile)];
    var ops := RoleLinks(q);
    assert ops[1..][1..] == [ops[2], ops[3]] && ops[1..][1..][1..] == [ops[3]];
    ExecPass(v, ops, v1);
    ExecPass(v1, ops[1..], v2);
    ExecPass(v2, ops[1..][1..], v3);
    ExecOne(v3, ops[3]);
  }

  /** A role name already present (the template may carry one) makes
      `os.symlink` raise. */
  lemma RoleLinkTaken(v: Tree, q: Request)
    requires DirAt(v, Workdir(q))
    requires InRun(q, "isf_draft_meter.nc") in v || InRun(q, "bathy_meter.nc") in v ||
             InRun(q, "TS_init.nc") in v || InRun(q, "resto.nc") in v
    ensures ExecAll(v, RoleLinks(q)).outcome.Fail?
    ensures ExecAll(v, RoleLinks(q)).outcome.error.AlreadyExists?
  {
    var w, a, b, c, e := Workdir(q), InRun(q, "isf_draft_meter.nc"), InRun(q, "bathy_meter.nc"),
                         InRun(q, "TS_init.nc"), InRun(q, "resto.nc");
    assert a[|w|] == "isf_draft_meter.nc" && b[|w|] == "bathy_meter.nc" && c[|w|] == "TS_init.nc" && e[|w|] == "resto.nc";
    var ops := RoleLinks(q);
    assert ops[1..][1..] == [ops[2], ops[3]] && ops[1..][1..][1..] == [ops[3]];
    if a in v {
      ExecFail(v, ops);
    } else {
      var v1 := v[a := Link(q.bfile)];
      ExecPass(v, ops, v1);
      if b in v {
        ExecFail(v1, ops[1..]);
      } else {
        var v2 := v1[b := Link(q.bfile)];
        ExecPass(v1, ops[1..], v2);
        if c in v {
          ExecFail(v2, ops[1..][1..]);
        } else {
          var v3 := v2[c := Link(q.tsfile)];
          ExecPass(v2, ops[1..][1..], v3);
          ExecOne(v3, ops[3]);
        }
      }
    }
  }

  /** `rPARAMS.py` is written into the run directory, and every parameter
      line of it reads back as the parameter it was written from. */
  lemma ManifestWritten(v: Tree, q: Request, i: nat)
    requires i < 12
    ensures DirAt(v, Workdir(q)) && InRun(q, "rPARAMS.py") !in v ==> ExecAll(v, ManifestOps(q)).outcome.Pass?
    ensures var r, m := ExecAll(v, ManifestOps(q)).tree, InRun(q, "rPARAMS.py");
      ExecAll(v, ManifestOps(q)).outcome.Pass? ==>
        && IsFile(r, m) && ContentOf(r, m) == Text(Manifest.ManifestLines(q))
        && Manifest.ParseAssignment(ContentOf(r, m).lines[|Manifest.Header| + i]) == Some(Manifest.Parameters(q)[i])
  {
    var m, c := InRun(q, "rPARAMS.py"), Text(Manifest.ManifestLines(q));
    assert ManifestOps(q) == [WriteOp(m, c)];
    ExecOne(v, WriteOp(m, c));
    assert Parent(m) == Workdir(q);
    WrittenReadsBack(v, m, c);
    Manifest.ManifestReadsBack(q, i);
  }

  /** A file written successfully reads back as what was written. */
  lemma WrittenReadsBack(t: Tree, p: Path, c: Content)
    ensures var r := WriteFile(t, p, c); r.outcome.Pass? ==> IsFile(r.tree, p) && ContentOf(r.tree, p) == c
  {
  }

  /** The drivers into a run directory that does not hold them yet: the
      quick and long drivers are always written; the production driver is
      complete exactly when the post-processing script exists, and otherwise
      the staging fails leaving the driver partly written. */
  lemma DriversNeedSpinupTool(v: Tree, q: Request)
    requires DirAt(v, Workdir(q))
    requires InRun(q, "goNEMOquick.sh") !in v && InRun(q, "goNEMOlong.sh") !in v && Production(q) !in v
    requires SpinupTool(q) !in v || !v[SpinupTool(q)].Link?
    ensures var r := ExecAll(v, DriverOps(q));
      && (r.outcome.Pass? <==> SpinupTool(q) in v)
      && At(r.tree, InRun(q, "goNEMOquick.sh")) == Some(File(Script(DriversFor(q).quick)))
      && At(r.tree, InRun(q, "goNEMOlong.sh")) == Some(File(Script(DriversFor(q).long)))
      && (r.outcome.Pass? ==> At(r.tree, Production(q)) == Some(File(Script(DriversFor(q).production))))
      && (r.outcome.Fail? ==> r.outcome == Fail(Missing(SpinupTool(q))) &&
                                At(r.tree, Production(q)) == Some(File(Blob(PartialProduction))))
  {
    var w, a, b, c := Workdir(q), InRun(q, "goNEMOquick.sh"), InRun(q, "goNEMOlong.sh"), Production(q);
    assert a[|w|] == "goNEMOquick.sh" && b[|w|] == "goNEMOlong.sh" && c[|w|] == "goNEMOproduction.sh";
    var spin := SpinupTool(q);
    assert spin[|spin| - 1] == "mk_nemo_spinup.py";
    assert spin != a && spin != b && spin != c;
    var ds := DriversFor(q);
    var v1 := v[a := File(Script(ds.quick))];
    var v2 := v1[b := File(Script(ds.long))];
    ScriptsSteps(v, q);
    ExecAllAppend(v, ScriptOps(q), ProductionOps(q));
    ProductionSteps(v2, q);
  }

  lemma ScriptsSteps(v: Tree, q: Request)
    requires DirAt(v, Workdir(q))
    requires InRun(q, "goNEMOquick.sh") !in v && InRun(q, "goNEMOlong.sh") !in v
    ensures ExecAll(v, ScriptOps(q)) ==
      Run(v[InRun(q, "goNEMOquick.sh") := File(Script(DriversFor(q).quick))]
           [InRun(q, "goNEMOlong.sh") := File(Script(DriversFor(q).long))], Pass)
  {
    var w, a, b := Workdir(q), InRun(q, "goNEMOquick.sh"), InRun(q, "goNEMOlong.sh");
    assert a[|w|] == "goNEMOquick.sh" && b[|w|] == "goNEMOlong.sh";
    var ops := ScriptOps(q);
    var v1 := v[a := File(Script(DriversFor(q).quick))];
    WriteFresh(v, a, Script(DriversFor(q).quick));
    ExecPass(v, ops, v1);
    assert ops[1..] == [ops[1]];
    WriteFresh(v1, b, Script(DriversFor(q).long));
    ExecOne(v1, ops[1]);
  }

  lemma ProductionSteps(v: Tree, q: Request)
    requires DirAt(v, Workdir(q)) && Production(q) !in v
    requires SpinupTool(q) !in v || !v[SpinupTool(q)].Link?
    requires SpinupTool(q) != Production(q)
    ensures ExecAll(v, ProductionOps(q)) ==
      if SpinupTool(q) in v then Run(v[Production(q) := File(Script(DriversFor(q).production))], Pass)
      else Run(v[Production(q) := File(Blob(PartialProduction))], Fail(Missing(SpinupTool(q))))
  {
    var c := Production(q);
    WriteFresh(v, c, Blob(PartialProduction));
    ExecPass(v, ProductionOps(q), v[c := File(Blob(PartialProduction))]);
    ProductionTail(v, q);
  }

  /** After the partial write: the tool check, then the whole driver. */
  lemma ProductionTail(v: Tree, q: Request)
    requires DirAt(v, Workdir(q))
    requires SpinupTool(q) !in v || !v[SpinupTool(q)].Link?
    requires SpinupTool(q) != Production(q)
    ensures var v1 := v[Production(q) := File(Blob(PartialProduction))];
      ExecAll(v1, ProductionOps(q)[1..]) ==
        if SpinupTool(q) in v then Run(v[Production(q) := File(Script(DriversFor(q).production))], Pass)
        else Run(v1, Fail(Missing(SpinupTool(q))))
  {
    var c, spin := Production(q), SpinupTool(q);
    var v1 := v[c := File(Blob(PartialProduction))];
    var tail := ProductionOps(q)[1..];
    assert tail[0] == RequireExists(spin, Missing(spin));
    assert tail[1..] == [WriteOp(c, Script(DriversFor(q).production))];
    SeenPastWrite(v, c, File(Blob(PartialProduction)), spin);
    if spin in v {
      ExecPass(v1, tail, v1);
      WriteOver(v1, c, Script(DriversFor(q).production));
      ExecOne(v1, WriteOp(c, Script(DriversFor(q).production)));
      assert v1[c := File(Script(DriversFor(q).production))] == v[c := File(Script(DriversFor(q).production))];
    } else {
      ExecFail(v1, tail);
    }
  }

  /** Writing one path does not change whether another, which is not a
      link, exists. */
  lemma SeenPastWrite(t: Tree, c: Path, e: Entry, p: Path)
    requires p != c && (p !in t || !t[p].Link?)
    ensures Exists(t[c := e], p) <==> p in t
  {
  }

  /** Writing over a file that is not a link replaces its content. */
  lemma WriteOver(t: Tree, p: Path, c: Content)
    requires p in t && t[p].File? && p != [] && DirAt(t, Parent(p))
    ensures Exec(t, WriteOp(p, c)) == Run(t[p := File(c)], Pass)
  {
  }

  /** `os.makedirs` on a missing directory whose parent exists, in a
      well-formed tree: every shorter prefix is already a directory, so only
      the last one is made. */
  lemma {:induction false} MakeDirsLast(t: Tree, p: Path, i: nat)
    requires 1 <= i <= |p| && p !in t && DirAt(t, Parent(p))
    requires forall j :: i <= j < |p| ==> DirAt(t, p[..j])
    ensures MakeDirsFrom(t, p, i) == Run(t[p := Dir], Pass)
    decreases |p| - i
  {
    if i < |p| {
      MakeDirsLast(t, p, i + 1);
    } else {
      assert p[..i] == p;
    }
  }

  /** The `mkdir` helper on `rfiles/`: nothing to do when it exists, else it
      is made inside the template directory. */
  lemma LedgerDirReady(v: Tree, q: Request)
    requires WellFormed(v) && DirAt(v, q.workfol)
    requires DirAt(v, LedgerDir(q)) || LedgerDir(q) !in v
    ensures MakeDirs(v, LedgerDir(q)) == Run(v[LedgerDir(q) := Dir], Pass)
  {
    var p := LedgerDir(q);
    if DirAt(v, p) {
      assert v[p := Dir] == v;
    } else {
      assert Parent(p) == q.workfol;
      forall j | 1 <= j < |p| ensures DirAt(v, p[..j]) {
        if j < |q.workfol| {
          AncestorIsDir(v, q.workfol, j);
          assert p[..j] == q.workfol[..j];
        } else {
          assert p[..j] == q.workfol;
        }
      }
      MakeDirsLast(v, p, 1);
    }
  }

  /** The ledger: a new `runme` starts with YEAR_MAX and then the run's
      line; an existing one keeps its lines and gains exactly the run's
      line; nothing else changes. */
  lemma LedgerAppends(v: Tree, q: Request)
    requires WellFormed(v) && DirAt(v, q.workfol)
    requires DirAt(v, LedgerDir(q)) || LedgerDir(q) !in v
    requires LedgerFile(q) !in v || v[LedgerFile(q)].File?
    ensures var l, line, r := LedgerFile(q), LedgerLine(q), ExecAll(v, LedgerOps(q));
      var v1 := v[LedgerDir(q) := Dir];
      && (l !in v ==> r == Run(v1[l := File(Text([Dec(q.yearMax), line]))], Pass))
      && (l in v && v[l].content.Text? ==> r == Run(v[l := File(Text(v[l].content.lines + [line]))], Pass))
      && (l in v && !v[l].content.Text? ==> r == Run(v, Fail(NotText(l))))
  {
    var l, d := LedgerFile(q), LedgerDir(q);
    var ops := LedgerOps(q);
    var v1 := v[d := Dir];
    LedgerDirReady(v, q);
    ExecPass(v, ops, v1);
    assert DirAt(v1, d) && Parent(l) == d;
    if l in v {
      LedgerExisting(v, q);
    } else {
      LedgerNew(v1, q);
    }
  }

  lemma LedgerExisting(v: Tree, q: Request)
    requires LedgerFile(q) in v && v[LedgerFile(q)].File?
    ensures var l, line, r := LedgerFile(q), LedgerLine(q), ExecAll(v, LedgerOps(q)[1..]);
      && (v[l].content.Text? ==> r == Run(v[l := File(Text(v[l].content.lines + [line]))], Pass))
      && (!v[l].content.Text? ==> r == Run(v, Fail(NotText(l))))
  {
    var ops := LedgerOps(q)[1..];
    assert ops[1..] == [ops[1]];
    ExecPass(v, ops, v);
    ExecOne(v, ops[1]);
    AppendTo(v, LedgerFile(q), LedgerLine(q));
  }

  lemma LedgerNew(v: Tree, q: Request)
    requires LedgerFile(q) !in v && DirAt(v, LedgerDir(q))
    ensures ExecAll(v, LedgerOps(q)[1..]) ==
              Run(v[LedgerFile(q) := File(Text([Dec(q.yearMax), LedgerLine(q)]))], Pass)
  {
    var l, line := LedgerFile(q), LedgerLine(q);
    var ops := LedgerOps(q)[1..];
    assert ops[1..] == [ops[1]];
    var v2 := v[l := File(Text([Dec(q.yearMax)]))];
    WriteFresh(v, l, Text([Dec(q.yearMax)]));
    ExecPass(v, ops, v2);
    ExecOne(v2, ops[1]);
    AppendTo(v2, l, line);
    assert [Dec(q.yearMax)] + [line] == [Dec(q.yearMax), line];
  }

  /** Append mode on an existing regular file that is not a link. */
  lemma AppendTo(t: Tree, p: Path, line: string)
    requires p in t && t[p].File?
    ensures t[p].content.Text? ==> Exec(t, AppendOp(p, line)) == Run(t[p := File(Text(t[p].content.lines + [line]))], Pass)
    ensures !t[p].content.Text? ==> Exec(t, AppendOp(p, line)) == Run(t, Fail(NotText(p)))
  {
  }
}
