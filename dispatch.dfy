/** The script's entry point: the configuration type picks the inputs of one
    run per (case number, forcing) pair of the campaign, and each run is
    staged with `main` and then given its domain with `mkmesh`. The first
    failure ends the whole campaign. */
module Dispatch {
  import opened Paths
  import opened Outcomes
  import opened Text
  import opened Fs
  import opened Ops
  import opened Disk
  import opened Drivers
  import Namelist
  import opened Setup
  import Manifest
  import Staging
  import Domain

  // ---------------------------------------------------------------------
  // The constants of the entry point.

  /** `workfol`, the template directory (its trailing '/' is the path's end). */
  const Workfol: Path := ["work", "n02", "n02", "chbull", "repos", "nemo_wed_analysis", "ajtoy", "configs", "rnemoARCHER2"]

  /** `CASE`, the last of its successive assignments. */
  const Case: string := "08"

  /** The (NUM, flx) pairs the campaign loop zips together. */
  const Cases: seq<(nat, string)> := [(83, "18"), (84, "19"), (85, "01"), (86, "20"), (87, "21")]

  /** The values `main` assigns to `rP_YEAR0`, `rP_YEAR_MAX` (its last
      assignment) and `rP_DESC`. */
  const Year0: nat := 1
  const YearMax: nat := 100
  const Description: string := "config 08. cases 73-97 trying tanh shelf with a range of open and blocked single width walls, tanh bathymetry is otherwise the same as c16. re-entrant zonal boundary, now with momentum diagnostics output. And improved world ocean atlas initial conditions and restoring as well as better vertical levels, this includes surface restoring in upper 10m. now with thickness weighted momentum diagnostics. This is the re-runs in light of paper revision with gm (2000) and eddy heat transport diagnostics. 100 year run"

  /** The `domaincfg` executable every run is given. */
  const DomainTool: Path := ["mnt", "lustre", "a2fs-work2", "work", "n02", "n02", "chbull", "nemo", "models", "NEMO4", "tools", "DOMAINcfg", "BLD", "bin", "make_domain_cfg.exe"]

  const AsfInput: Path := ["work", "n02", "n02", "chbull", "nemo", "bld_configs", "input_ASF"]
  const AsfModel: Path := ["work", "n02", "n02", "chbull", "nemo", "models", "NEMO404_MO", "tests", "asfdyn", "BLD", "bin", "nemo.exe"]
  /** The script that post-processes `domain_cfg.nc` in 'hacked' mode. */
  const HackScript: Path := ["mnt", "lustre", "a2fs-work2", "work", "n02", "n02", "chbull", "repos", "nemo_wed_analysis", "ajtoy", "diagnostics", "mk_domaincfg.py"]

  const AjtoyInput: Path := ["work", "n02", "n02", "chbull", "nemo", "bld_configs", "input_ajtoy"]
  const AjtoyModel: Path := ["mnt", "lustre", "a2fs-work2", "work", "n02", "n02", "chbull", "nemo", "models", "NEMO4", "tests", "aj_ts_melt_off2", "BLD", "bin", "nemo.exe"]

  /** `rP_CASE = CASE.zfill(5)`. */
  function CaseId(): (c: string)
    ensures |c| == 5
  {
    ZFill(Case, 5)
  }

  /** The grid the ASF domain namelist is patched to: 257 x 385 points, 75
      levels, a re-entrant zonal boundary, the stretched vertical levels and
      no ice-shelf cavities. Real literals are kept as written. */
  function AsfDomainPatch(): Namelist.Patch {
    map["namcfg" := map["jpiglo" := Namelist.Int(257), "jpidta" := Namelist.Int(257),
                        "jpjglo" := Namelist.Int(385), "jpjdta" := Namelist.Int(385),
                        "jpkdta" := Namelist.Int(75), "jperio" := Namelist.Int(1)],
        "namdom" := map["ppkth" := Namelist.Real("15.35101370000000"), "ppacr" := Namelist.Real("7."),
                        "ppdzmin" := Namelist.Int(0), "pphmax" := Namelist.Int(0),
                        "ppsur" := Namelist.Real("-3958.951371276829"), "ppa0" := Namelist.Real("103.9530096000000"),
                        "ppa1" := Namelist.Real("2.415951269000000"), "ldbletanh" := Namelist.Bool(true),
                        "ppa2  " := Namelist.Real("100.7609285000000"), "ppkth2" := Namelist.Real("48.02989372000000"),
                        "ppacr2" := Namelist.Real("13.00000000000")],
        "namzgr" := map["ln_isfcav" := Namelist.Bool(false)]]
  }

  /** The model namelist patch of the ASF runs: no ice-shelf pressure
      gradient or melt, the s-coordinate pressure gradient, and the
      eddy-induced velocity with its diagnostics. */
  function AsfRunPatch(): Namelist.Patch {
    map["namdyn_hpg" := map["ln_hpg_isf" := Namelist.Bool(false), "ln_hpg_sco" := Namelist.Bool(true)],
        "namsbc" := map["ln_isf" := Namelist.Bool(false)],
        "namtra_eiv" := map["ln_ldfeiv" := Namelist.Bool(true), "ln_ldfeiv_dia" := Namelist.Bool(true)]]
  }

  /** One run of the campaign: the arguments of `main`, and those of
      `mkmesh` that are not `main`'s return value. */
  datatype Plan = Plan(run: Request, domainPatch: Option<Namelist.Patch>, killisf: bool)

  /** The branch of the dispatch taken for one (NUM, flx) pair. 'SVM' and
      'SR_ML' never assign `rP_CONFIG`, so the call of `main` raises a
      NameError; an unknown type exits. */
  function ConfigFor(kind: string, num: nat, flx: string, desc: string): Result<Plan> {
    if kind == "SVM" || kind == "SR_ML" then Err(Unbound("rP_CONFIG"))
    else if kind == "AJTOY" then
      Ok(Plan(Request(Workfol, "ajtoy_10Fsl_FB_MOVIE", kind, CaseId(), AjtoyModel,
                      AjtoyInput + ["new_bathy_FB.nc"], AjtoyInput + ["TS_init_rho1_uHoz_uVert_10slpd.nc"],
                      Some(map[]), None, DomainSelector("", []), Year0, YearMax, desc),
                  Some(map[]), false))
    else if kind == "ASF" then
      Ok(Plan(Request(Workfol, "asf_c" + Dec(num), kind, CaseId(), AsfModel,
                      AsfInput + ["new_bathy_ASF_c39_deeprid_oowall.nc"], AsfInput + ["TS_init_c03_woa2018.nc"],
                      Some(AsfRunPatch()), Some(AsfInput + ["flxforce_case" + flx + "_grid_.nc"]),
                      DomainSelector("hacked", HackScript), Year0, YearMax, desc),
                  Some(AsfDomainPatch()), false))
    else Err(UnknownConfigType(kind))
  }

  /** The call of `mkmesh` once `main` has returned the run directory `w`;
      `nco` is what the external nco tools would write. */
  function MeshFor(p: Plan, w: Path, nco: Domain.NcoOutput): Domain.MeshRequest {
    Domain.MeshRequest(p.run.workfol, w, DomainTool, p.run.bfile, p.domainPatch, p.killisf, p.run.domain, nco)
  }

  /** The plans of the campaign's pairs, in the loop's order. */
  function Plans(kind: string, desc: string): (ps: seq<Result<Plan>>)
    ensures |ps| == |Cases|
  {
    seq(|Cases|, i requires 0 <= i < |Cases| => ConfigFor(kind, Cases[i].0, Cases[i].1, desc))
  }

  /** What one iteration of the loop does to the filesystem: nothing but the
      failure when the dispatch fails, otherwise `main` and then `mkmesh`
      on the run directory `main` returns. */
  function CaseOps(r: Result<Plan>, nco: Domain.NcoOutput): seq<Op> {
    match r
    case Err(e) => [Abort(e)]
    case Ok(p) => Staging.MainOps(p.run) + Domain.MeshOps(MeshFor(p, Workdir(p.run), nco))
  }

  /** The first k iterations. */
  function CampaignOps(ps: seq<Result<Plan>>, nco: Domain.NcoOutput, k: nat): seq<Op>
    requires k <= |ps|
  {
    if k == 0 then [] else CampaignOps(ps, nco, k - 1) + CaseOps(ps[k - 1], nco)
  }

  // ---------------------------------------------------------------------
  // The loop.

  /** The configuration type the script is run with. */
  const ConfigType: string := "ASF"

  /** The script run as a program: the campaign over the plans of
      `ConfigType`, every run carrying the description `main` assigns. */
  method Script(fs: FileSystem, nco: Domain.NcoOutput) returns (o: Outcome, submitted: seq<Path>)
    requires fs.Valid()
    modifies fs
    ensures Run(fs.tree, o) == ExecAll(old(fs.tree), CampaignOps(Plans(ConfigType, Description), nco, |Cases|))
    ensures o.Pass? <==> |submitted| == |Cases|
    ensures fs.Valid()
  {
    o, submitted := Campaign(fs, Plans(ConfigType, Description), nco);
  }

  /** The campaign over a list of plans: for each in turn,
      `main`, `mkmesh`, and the submission of the run directory's
      production driver (the job itself is not run here). Returns the run
      directories submitted, in order; `submitted[i]` is the directory of
      the i-th plan. */
  method Campaign(fs: FileSystem, ps: seq<Result<Plan>>, nco: Domain.NcoOutput) returns (o: Outcome, submitted: seq<Path>)
    requires fs.Valid()
    modifies fs
    ensures Run(fs.tree, o) == ExecAll(old(fs.tree), CampaignOps(ps, nco, |ps|))
    ensures o.Pass? ==> |submitted| == |ps|
    ensures o.Fail? ==> |submitted| < |ps|
    ensures Submitted(ps, submitted)
    ensures fs.Valid()
  {
    ghost var t0 := fs.tree;
    o := Pass;
    submitted := [];
    var i := 0;
    while i < |ps|
      invariant 0 <= i <= |ps| && fs.Valid()
      invariant ExecAll(t0, CampaignOps(ps, nco, i)) == Run(fs.tree, Pass)
      invariant |submitted| == i && o == Pass
      invariant Submitted(ps, submitted)
    {
      var w;
      o, w := NextCase(fs, ps, nco, i, t0);
      if o.Fail? { return; }
      SubmittedNext(ps, submitted, w);
      submitted := submitted + [w];
      i := i + 1;
    }
  }

  /** `submitted` lists the run directories of the first plans, each of
      which reached `main`. */
  predicate Submitted(ps: seq<Result<Plan>>, submitted: seq<Path>) {
    |submitted| <= |ps| &&
    forall j :: 0 <= j < |submitted| ==> ps[j].Ok? && submitted[j] == Workdir(ps[j].value.run)
  }

  /** One more plan that reached `main`, one more directory submitted. */
  lemma SubmittedNext(ps: seq<Result<Plan>>, submitted: seq<Path>, w: Path)
    requires Submitted(ps, submitted) && |submitted| < |ps|
    requires ps[|submitted|].Ok? && w == Workdir(ps[|submitted|].value.run)
    ensures Submitted(ps, submitted + [w])
  {
  }

  /** The loop's i-th iteration, after i iterations that passed. */
  method NextCase(fs: FileSystem, ps: seq<Result<Plan>>, nco: Domain.NcoOutput, i: nat, ghost t0: Tree) returns (o: Outcome, w: Path)
    requires i < |ps| && fs.Valid()
    requires ExecAll(t0, CampaignOps(ps, nco, i)) == Run(fs.tree, Pass)
    modifies fs
    ensures ExecAll(t0, CampaignOps(ps, nco, i + 1)) == Run(fs.tree, o)
    ensures o.Fail? ==> ExecAll(t0, CampaignOps(ps, nco, |ps|)) == Run(fs.tree, o)
    ensures o.Pass? ==> ps[i].Ok? && w == Workdir(ps[i].value.run)
    ensures fs.Valid()
  {
    ghost var u := fs.tree;
    o, w := RunCase(fs, ps[i], nco);
    CampaignStep(t0, ps, nco, i, u, Run(fs.tree, o));
  }

  /** One iteration: the dispatch's failure, or `main` and then `mkmesh` on
      the directory `main` returned. */
  method RunCase(fs: FileSystem, r: Result<Plan>, nco: Domain.NcoOutput) returns (o: Outcome, w: Path)
    requires fs.Valid()
    modifies fs
    ensures Run(fs.tree, o) == ExecAll(old(fs.tree), CaseOps(r, nco))
    ensures o.Pass? ==> r.Ok? && w == Workdir(r.value.run)
    ensures fs.Valid()
  {
    if r.Err? {
      ExecOne(fs.tree, Abort(r.error));
      return Fail(r.error), [];
    }
    o, w := StageAndMesh(fs, r.value, nco);
  }

  /** `main` and then, if it returned, `mkmesh` on its run directory. */
  method StageAndMesh(fs: FileSystem, p: Plan, nco: Domain.NcoOutput) returns (o: Outcome, w: Path)
    requires fs.Valid()
    modifies fs
    ensures Run(fs.tree, o) == ExecAll(old(fs.tree), Staging.MainOps(p.run) + Domain.MeshOps(MeshFor(p, Workdir(p.run), nco)))
    ensures w == Workdir(p.run)
    ensures fs.Valid()
  {
    ghost var t0 := fs.tree;
    o, w := Staging.StageRun(fs, p.run);
    ghost var ra := Run(fs.tree, o);
    if o.Fail? {
      ExecAllThen(t0, Staging.MainOps(p.run), Domain.MeshOps(MeshFor(p, w, nco)), ra, ra);
      return;
    }
    o := Domain.MakeMesh(fs, MeshFor(p, w, nco));
    ExecAllThen(t0, Staging.MainOps(p.run), Domain.MeshOps(MeshFor(p, w, nco)), ra, Run(fs.tree, o));
  }

  /** One more iteration, from the tree the earlier ones left; a failing
      one is the campaign's end. */
  lemma CampaignStep(t: Tree, ps: seq<Result<Plan>>, nco: Domain.NcoOutput, i: nat, u: Tree, r: Run)
    requires i < |ps| && ExecAll(t, CampaignOps(ps, nco, i)) == Run(u, Pass)
    requires r == ExecAll(u, CaseOps(ps[i], nco))
    ensures ExecAll(t, CampaignOps(ps, nco, i + 1)) == r
    ensures r.outcome.Fail? ==> ExecAll(t, CampaignOps(ps, nco, |ps|)) == r
  {
    ExecAllAppend(t, CampaignOps(ps, nco, i), CaseOps(ps[i], nco));
    if r.outcome.Fail? {
      StopsThere(t, ps, nco, i + 1);
    }
  }

  /** Once an iteration fails, the later ones do not run. */
  lemma {:induction false} StopsThere(t: Tree, ps: seq<Result<Plan>>, nco: Domain.NcoOutput, k: nat)
    requires k <= |ps| && ExecAll(t, CampaignOps(ps, nco, k)).outcome.Fail?
    ensures ExecAll(t, CampaignOps(ps, nco, |ps|)) == ExecAll(t, CampaignOps(ps, nco, k))
    decreases |ps| - k
  {
    if k < |ps| {
      ExecAllAppend(t, CampaignOps(ps, nco, k), CaseOps(ps[k], nco));
      StopsThere(t, ps, nco, k + 1);
    }
  }

  // ---------------------------------------------------------------------
  // What the dispatch picks.

  /** `'08'.zfill(5)`: the case id every run directory ends with. */
  lemma CaseIdPadded()
    ensures CaseId() == "00008"
  {
    assert "0" + "08" == "008" && "0" + "008" == "0008" && "0" + "0008" == "00008";
    assert ZeroPad("0008", 5) == "00008";
    assert ZeroPad("008", 5) == ZeroPad("0008", 5);
    assert ZeroPad("08", 5) == ZeroPad("008", 5);
  }

  /** Only 'AJTOY' and 'ASF' reach `main`; the two types that leave
      `rP_CONFIG` unassigned fail with a NameError, any other word exits,
      and in every case the failure is the same for every pair. */
  lemma ConfigErrors(kind: string, num: nat, flx: string, desc: string)
    ensures ConfigFor(kind, num, flx, desc).Ok? <==> kind == "AJTOY" || kind == "ASF"
    ensures kind == "SVM" || kind == "SR_ML" ==> ConfigFor(kind, num, flx, desc) == Err(Unbound("rP_CONFIG"))
    ensures kind !in {"SVM", "SR_ML", "AJTOY", "ASF"} ==> ConfigFor(kind, num, flx, desc) == Err(UnknownConfigType(kind))
  {
  }

  /** A type the dispatch cannot stage ends the campaign at its first pair
      with nothing changed and nothing submitted. */
  lemma CampaignRefused(t: Tree, kind: string, desc: string, nco: Domain.NcoOutput)
    requires kind != "AJTOY" && kind != "ASF"
    ensures ExecAll(t, CampaignOps(Plans(kind, desc), nco, |Cases|)) == Run(t, Fail(Plans(kind, desc)[0].error))
  {
    var ps := Plans(kind, desc);
    ConfigErrors(kind, Cases[0].0, Cases[0].1, desc);
    var e := ps[0].error;
    assert CampaignOps(ps, nco, 1) == [Abort(e)];
    ExecOne(t, Abort(e));
    StopsThere(t, ps, nco, 1);
  }

  /** An ASF run: the configuration name carries the pair's number, the run
      uses 1024 ocean cores, its forcing file carries the pair's forcing
      tag, the drivers hook the hacking script in after make_domain_cfg.exe,
      and `mkmesh` prepares domaincfg/ without removing the ice shelf. */
  lemma AsfPlan(num: nat, flx: string, desc: string, nco: Domain.NcoOutput)
    ensures ConfigFor("ASF", num, flx, desc).Ok?
    ensures var p := ConfigFor("ASF", num, flx, desc).value;
      && p.run.config == "asf_c" + Dec(num)
      && p.run.caseId == "00008"
      && OceanCores(p.run) == 1024
      && Staging.HasForcing(p.run) && p.run.flxfce.value == AsfInput + ["flxforce_case" + flx + "_grid_.nc"]
      && PrologueFor(p.run.domain) == MakeDomain(Some(HackScript))
      && DriversFor(p.run).production == Production(MakeDomain(Some(HackScript)), 91, 101, 101)
      && Domain.MeshOps(MeshFor(p, Workdir(p.run), nco)) == Domain.DomCfgOps(MeshFor(p, Workdir(p.run), nco))
      && !MeshFor(p, Workdir(p.run), nco).killisf
  {
    CaseIdPadded();
  }

  /** Whatever the template's `namelist_ref` holds, an ASF run's active
      namelist has the ice shelf switched off and the eddy-induced velocity
      on, and keeps every group the patch does not name. */
  lemma AsfActiveNamelist(num: nat, flx: string, desc: string, d: Namelist.Doc)
    ensures var doc := Staging.ActiveDoc(ConfigFor("ASF", num, flx, desc).value.run, d);
      && doc["namsbc"]["ln_isf"] == Namelist.Bool(false)
      && doc["namdyn_hpg"]["ln_hpg_isf"] == Namelist.Bool(false)
      && doc["namtra_eiv"]["ln_ldfeiv"] == Namelist.Bool(true)
      && (forall g :: g in d && g !in {"namsbc", "namdyn_hpg", "namtra_eiv"} ==> g in doc && doc[g] == d[g])
  {
    var p := AsfRunPatch();
    assert "namsbc" in p && "ln_isf" in p["namsbc"];
    assert "namdyn_hpg" in p && "ln_hpg_isf" in p["namdyn_hpg"];
    assert "namtra_eiv" in p && "ln_ldfeiv" in p["namtra_eiv"];
    forall g | g in d && g !in {"namsbc", "namdyn_hpg", "namtra_eiv"}
      ensures g in Namelist.Apply(d, p) && Namelist.Apply(d, p)[g] == d[g]
    {
      Namelist.ApplyOtherGroupsUntouched(d, p, g);
    }
  }

  /** The ASF domain: 75 levels on the 257 x 385 grid and no cavities,
      whatever the template's domain namelist holds. */
  lemma AsfDomainNamelist(d: Namelist.Doc)
    ensures var doc := Namelist.Apply(d, AsfDomainPatch());
      && doc["namcfg"]["jpkdta"] == Namelist.Int(75)
      && doc["namcfg"]["jpiglo"] == Namelist.Int(257) && doc["namcfg"]["jpjglo"] == Namelist.Int(385)
      && doc["namzgr"]["ln_isfcav"] == Namelist.Bool(false)
  {
    var p := AsfDomainPatch();
    assert "namcfg" in p && "jpkdta" in p["namcfg"] && "jpiglo" in p["namcfg"] && "jpjglo" in p["namcfg"];
    assert "namzgr" in p && "ln_isfcav" in p["namzgr"];
  }

  /** `str(n)` of a two-digit number. */
  lemma TwoDigits(n: nat)
    requires 10 <= n < 100
    ensures Dec(n) == [DigitChar(n / 10), DigitChar(n % 10)]
  {
  }

  /** The five ASF runs are staged in five different run directories, so no
      iteration meets the directory an earlier one created. */
  lemma AsfRunDirsDistinct(i: nat, j: nat, desc: string)
    requires i < j < |Cases|
    ensures Workdir(Plans("ASF", desc)[i].value.run) != Workdir(Plans("ASF", desc)[j].value.run)
  {
    var a, b := Cases[i].0, Cases[j].0;
    TwoDigits(a);
    TwoDigits(b);
    var na, nb := Plans("ASF", desc)[i].value.run, Plans("ASF", desc)[j].value.run;
    assert na.config[6] == DigitChar(a % 10) && nb.config[6] == DigitChar(b % 10);
    assert Workdir(na)[|RunRoot|][6] != Workdir(nb)[|RunRoot|][6];
  }

  /** The fourth pair stages `asf_c86_00008` under `RDIR`. */
  lemma AsfC86RunDir(desc: string)
    ensures Render(Workdir(Plans("ASF", desc)[3].value.run)) == "/work/n02/n02/chbull/nemo/run/asf_c86_00008"
  {
    var q := Plans("ASF", desc)[3].value.run;
    TwoDigits(86);
    CaseIdPadded();
    assert q.config + "_" + q.caseId == "asf_c86_00008";
    WorkdirRendered(q);
  }

  /** The parameters an ASF run with number 75 records agree with the
      `rPARAMS.py` kept from the earlier run of case 75 (a case the
      current case list, 83 to 87, no longer submits): cores, run
      directory, name, case, description and years. */
  lemma AsfC75Parameters(desc: string)
    ensures var ls := Manifest.ManifestLines(ConfigFor("ASF", 75, "18", desc).value.run);
      && ls[5] == Manifest.Assignment("rP_OCEANCORES", "1024")
      && ls[7] == Manifest.Assignment("rP_WORKDIR", "/work/n02/n02/chbull/nemo/run/asf_c75_00008")
      && ls[11] == Manifest.Assignment("rP_CONFIG", "asf_c75")
      && ls[12] == Manifest.Assignment("rP_CASE", "00008")
      && ls[13] == Manifest.Assignment("rP_DESC", desc)
      && ls[15] == Manifest.Assignment("rP_YEAR0", "1")
      && ls[16] == Manifest.Assignment("rP_YEAR_MAX", "100")
  {
    var q := ConfigFor("ASF", 75, "18", desc).value.run;
    TwoDigits(75);
    CaseIdPadded();
    assert q.config == "asf_c75";
    Manifest.AsfC75Manifest(q);
  }

  // ---------------------------------------------------------------------
  // The AJTOY branch ignores the pair.

  /** A plan whose run passed leaves its run directory behind. */
  lemma CaseLeavesRunDir(t: Tree, p: Plan, nco: Domain.NcoOutput)
    requires ExecAll(t, CaseOps(Ok(p), nco)).outcome.Pass?
    ensures DirAt(ExecAll(t, CaseOps(Ok(p), nco)).tree, Workdir(p.run))
  {
    var a, b := Staging.MainOps(p.run), Domain.MeshOps(MeshFor(p, Workdir(p.run), nco));
    assert CaseOps(Ok(p), nco) == a + b;
    ExecAllAppend(t, a, b);
    Staging.StagedDirExists(t, p.run);
  }

  /** A plan whose run directory is already taken changes nothing and
      fails: on a missing input, or else on the existing directory. */
  lemma CaseRefusesRunDir(u: Tree, p: Plan, nco: Domain.NcoOutput)
    requires DirAt(u, Workdir(p.run))
    ensures ExecAll(u, CaseOps(Ok(p), nco)).tree == u
    ensures ExecAll(u, CaseOps(Ok(p), nco)).outcome.Fail?
    ensures Exists(u, p.run.bfile) && Exists(u, p.run.tsfile) && Exists(u, p.run.nemoExe) ==>
              ExecAll(u, CaseOps(Ok(p), nco)).outcome == Fail(DirectoryConflict(Workdir(p.run)))
  {
    var q := p.run;
    var a, b := Staging.MainOps(q), Domain.MeshOps(MeshFor(p, Workdir(q), nco));
    assert CaseOps(Ok(p), nco) == a + b;
    assert Exists(u, Workdir(q));
    Staging.PreflightResult(u, q);
    Staging.MainStopsOnPreflight(u, q);
    ExecAllAppend(u, a, b);
  }

  /** Running the same plan twice: once the first run has staged and
      meshed its directory, the second stops in `main`'s checks with
      nothing changed, on a missing input or else on the existing run
      directory. */
  lemma CaseTwice(t: Tree, p: Plan, nco: Domain.NcoOutput)
    requires ExecAll(t, CaseOps(Ok(p), nco)).outcome.Pass?
    ensures var u := ExecAll(t, CaseOps(Ok(p), nco)).tree;
      && ExecAll(u, CaseOps(Ok(p), nco)).tree == u
      && ExecAll(u, CaseOps(Ok(p), nco)).outcome.Fail?
      && (Exists(u, p.run.bfile) && Exists(u, p.run.tsfile) && Exists(u, p.run.nemoExe) ==>
            ExecAll(u, CaseOps(Ok(p), nco)).outcome == Fail(DirectoryConflict(Workdir(p.run))))
  {
    CaseLeavesRunDir(t, p, nco);
    CaseRefusesRunDir(ExecAll(t, CaseOps(Ok(p), nco)).tree, p, nco);
  }

  /** Every AJTOY pair names the same run directory, so once the first
      pair is staged and meshed, the second one stops in `main`'s checks
      with nothing changed, and the campaign ends there. */
  lemma AjtoyRepeats(t: Tree, desc: string, nco: Domain.NcoOutput)
    requires ExecAll(t, CampaignOps(Plans("AJTOY", desc), nco, 1)).outcome.Pass?
    ensures var u := ExecAll(t, CampaignOps(Plans("AJTOY", desc), nco, 1)).tree;
      && Plans("AJTOY", desc)[1] == Plans("AJTOY", desc)[0]
      && ExecAll(t, CampaignOps(Plans("AJTOY", desc), nco, |Cases|)) == ExecAll(t, CampaignOps(Plans("AJTOY", desc), nco, 2))
      && ExecAll(t, CampaignOps(Plans("AJTOY", desc), nco, 2)).tree == u
      && ExecAll(t, CampaignOps(Plans("AJTOY", desc), nco, 2)).outcome.Fail?
  {
    var ps := Plans("AJTOY", desc);
    assert ps[0].Ok? && ps[1] == ps[0];
    RepeatedFirst(t, ps, nco);
  }

  /** A campaign whose first two plans are the same valid plan stops at
      the second, with the tree the first one left. */
  lemma RepeatedFirst(t: Tree, ps: seq<Result<Plan>>, nco: Domain.NcoOutput)
    requires 2 <= |ps| && ps[0].Ok? && ps[1] == ps[0]
    requires ExecAll(t, CampaignOps(ps, nco, 1)).outcome.Pass?
    ensures ExecAll(t, CampaignOps(ps, nco, |ps|)) == ExecAll(t, CampaignOps(ps, nco, 2))
    ensures ExecAll(t, CampaignOps(ps, nco, 2)).tree == ExecAll(t, CampaignOps(ps, nco, 1)).tree
    ensures ExecAll(t, CampaignOps(ps, nco, 2)).outcome.Fail?
  {
    var c := CaseOps(ps[0], nco);
    assert CampaignOps(ps, nco, 1) == c;
    assert CampaignOps(ps, nco, 2) == c + c;
    CaseTwice(t, ps[0].value, nco);
    ExecAllAppend(t, c, c);
    StopsThere(t, ps, nco, 2);
  }
}
