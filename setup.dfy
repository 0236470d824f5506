/** What `main` is asked to stage, and the names it derives from the request:
    the run directory, the core count and the paths of the files it writes. */
module Setup {
  import opened Paths
  import opened Outcomes
  import opened Text
  import Namelist
  import opened Drivers

  /** `RDIR`, under which every run directory is created. */
  const RunRoot: Path := ["work", "n02", "n02", "chbull", "nemo", "run"]
  /** `RDIR` as the string the script joins names onto. */
  const RunRootText: string := "/work/n02/n02/chbull/nemo/run"
  /** `rP_STOCKDIR`, where the post-processing looks for output. */
  const StockDir: string := "/work/n02/n02/chbull/nemo/nemo_output"
  const Project: string := "n02-PROPHET"
  const RebuildTool: string := "/mnt/lustre/a2fs-work2/work/n02/n02/chbull/nemo/models/NEMO4/tools/REBUILD_NEMO/rebuild_nemo"
  const PsiTool: string := "/work/n02/n02/chbull/nemo/bld_configs/input_ajtoy/ncj_psi/post_grid_UV"
  /** `rP_NDAYS`, a module-level name `main` reads. */
  const Days: nat := 365

  /** The arguments of `main` that shape what it stages. `workfol` is the
      template directory (written with a trailing '/' in the Python code, so
      that `workfol + '*'` lists its entries); `flxfce` is None for the empty
      string; `patch` is None when `rP_nml_patch` is None (an empty dict is
      Some(map[])); `year0`, `yearMax` and `desc` are the values `main`
      assigns to `rP_YEAR0`, `rP_YEAR_MAX` and `rP_DESC`. */
  datatype Request = Request(
    workfol: Path,
    config: string,
    configType: string,
    caseId: string,
    nemoExe: Path,
    bfile: Path,
    tsfile: Path,
    patch: Option<Namelist.Patch>,
    flxfce: Option<Path>,
    domain: DomainSelector,
    year0: nat,
    yearMax: nat,
    desc: string)

  /** `rP_WORKDIR = RDIR + '/' + rP_CONFIG + '_' + rP_CASE`. */
  function Workdir(q: Request): (w: Path)
    ensures Below(w, RunRoot) && |w| == |RunRoot| + 1
    ensures w[|RunRoot|] == q.config + "_" + q.caseId
  {
    RunRoot + [q.config + "_" + q.caseId]
  }

  /** `rP_WORKDIR` as the string the script builds, records and prints. */
  function WorkdirText(q: Request): string {
    RunRootText + "/" + q.config + "_" + q.caseId
  }

  /** The string the script builds names the run directory. */
  lemma WorkdirRendered(q: Request)
    ensures Render(Workdir(q)) == WorkdirText(q)
  {
    RunRootRendered();
    RenderSnoc(RunRoot, q.config + "_" + q.caseId);
  }

  /** `RDIR` written out. */
  lemma RunRootRendered()
    ensures Render(RunRoot) == RunRootText
  {
    var p1: Path := ["work"];
    var p2: Path := p1 + ["n02"];
    var p3: Path := p2 + ["n02"];
    var p4: Path := p3 + ["chbull"];
    var p5: Path := p4 + ["nemo"];
    assert p5 + ["run"] == RunRoot;
    assert Render(p1) == "/work" by {
      RenderSnoc([], "work");
      assert [] + ["work"] == p1;
    }
    assert Render(p2) == "/work/n02" by { RenderSnoc(p1, "n02"); }
    assert Render(p3) == "/work/n02/n02" by { RenderSnoc(p2, "n02"); }
    assert Render(p4) == "/work/n02/n02/chbull" by { RenderSnoc(p3, "chbull"); }
    assert Render(p5) == "/work/n02/n02/chbull/nemo" by { RenderSnoc(p4, "nemo"); }
    RenderSnoc(p5, "run");
  }

  /** A file directly inside the run directory. */
  function InRun(q: Request, name: string): (p: Path)
    ensures p != [] && Parent(p) == Workdir(q) && p[|p| - 1] == name
  {
    Workdir(q) + [name]
  }

  /** `rP_OCEANCORES`: 1024 for the ASF configuration, 20 otherwise. */
  function OceanCores(q: Request): nat {
    if q.configType == "ASF" then 1024 else 20
  }

  /** `os.path.dirname` three times on `workfol` (whose trailing '/' makes
      the first call only strip it): the template's grandparent. */
  function TemplateGrandparent(workfol: Path): (g: Path)
    ensures |workfol| >= 2 ==> g == workfol[..|workfol| - 2]
    ensures |workfol| < 2 ==> g == []
    ensures Named(workfol) ==>
              DirName(DirName(DirName(Render(workfol) + "/"))) == if g == [] then "/" else Render(g)
  {
    ThreeDirNames(workfol);
    if |workfol| >= 2 then workfol[..|workfol| - 2] else []
  }

  /** `os.path.dirname` applied three times to the text of a directory
      written with its trailing '/' drops the '/' and then two components,
      stopping at "/". */
  lemma ThreeDirNames(w: Path)
    ensures Named(w) ==>
              DirName(DirName(DirName(Render(w) + "/"))) == if |w| < 3 then "/" else Render(w[..|w| - 2])
  {
    if Named(w) {
      DirNameOfDir(w);
      if w == [] {
        DirNameRoot();
      } else {
        TwoDirNames(w);
      }
    }
  }

  /** Two `os.path.dirname` calls on the text of a path drop its last two
      components, stopping at "/". */
  lemma TwoDirNames(w: Path)
    requires Named(w) && w != []
    ensures DirName(DirName(Render(w))) == if |w| < 3 then "/" else Render(w[..|w| - 2])
  {
    DirNameOfPath(w);
    if |w| == 1 {
      DirNameRoot();
    } else {
      TwoDirNamesDeep(w);
    }
  }

  lemma TwoDirNamesDeep(w: Path)
    requires Named(w) && |w| >= 2
    ensures DirName(DirName(Render(w))) == if |w| < 3 then "/" else Render(w[..|w| - 2])
  {
    var a := Parent(w);
    var once := DirName(Render(w));
    DirNameOfPath(w);
    assert once == Render(a);
    DirNameOfPath(a);
    if |w| == 2 {
      assert DirName(once) == "/";
    } else {
      assert DirName(once) == Render(Parent(a));
      assert Parent(a) == w[..|w| - 2];
    }
  }





  /** `supf`: the spin-up post-processing script the production driver calls. */
  function SpinupTool(q: Request): Path {
    TemplateGrandparent(q.workfol) + ["diagnostics", "mk_nemo_spinup.py"]
  }

  /** The launch ledger `workfol + 'rfiles/runme'`. */
  function LedgerDir(q: Request): Path {
    q.workfol + ["rfiles"]
  }

  function LedgerFile(q: Request): (p: Path)
    ensures p != [] && Parent(p) == LedgerDir(q)
  {
    LedgerDir(q) + ["runme"]
  }

  /** The three drivers `main` writes for this request. */
  function DriversFor(q: Request): DriverSet {
    Generate(q.yearMax, q.domain)
  }
}
