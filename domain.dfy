/** `mkmesh` and `mkdomcfg`: preparing the run directory's `domaincfg/`
    sub-directory, from which the drivers' prologue builds `domain_cfg.nc`,
    or linking an externally built `domain_cfg.nc` instead. The mode word of
    `extdomaincfg` picks one of the three behaviours; any other word stops
    the setup. */
module Domain {
  import opened Paths
  import opened Outcomes
  import opened Fs
  import opened Ops
  import opened Disk
  import opened Drivers
  import Namelist
  import Staging

  /** What the nco command line of the ice-shelf removal leaves behind:
      `ncks` writes the middle file and `ncrename` writes `bathy_meter.nc`;
      None where a tool writes nothing. The command's exit status is not
      looked at. */
  datatype NcoOutput = NcoOutput(middle: Option<Content>, bathy: Option<Content>)

  /** The arguments of `mkmesh`. `workdir` is the run directory `main`
      returned; `patch` is the domain namelist patch (None for Python's
      None); `nco` is what the external tools write in `killisf` mode. */
  datatype MeshRequest = MeshRequest(
    workfol: Path,
    workdir: Path,
    domainExe: Path,
    bfile: Path,
    patch: Option<Namelist.Patch>,
    killisf: bool,
    ext: DomainSelector,
    nco: NcoOutput)

  /** `rP_WORKDIR + '/domaincfg/'`. */
  function DomDir(m: MeshRequest): Path {
    m.workdir + ["domaincfg"]
  }

  function InDom(m: MeshRequest, name: string): (p: Path)
    ensures p != [] && Parent(p) == DomDir(m) && p[|p| - 1] == name
  {
    DomDir(m) + [name]
  }

  /** `workfol + 'domaincfg/'`, the domain template. */
  function DomTemplate(m: MeshRequest): Path {
    m.workfol + ["domaincfg"]
  }

  function DomNml(m: MeshRequest): Path { InDom(m, "namelist_cfg") }
  function DomNmlNew(m: MeshRequest): Path { InDom(m, "namelist_cfg_new") }

  /** `domain_cfg.nc` directly in the run directory ('rogue' mode). */
  function RogueLink(m: MeshRequest): Path { m.workdir + ["domain_cfg.nc"] }

  /** The modes that run `mkdomcfg`. */
  predicate RunsDomCfg(kind: string) {
    kind == "" || kind == "hacked"
  }

  // ---------------------------------------------------------------------
  // The steps, as data.

  /** `os.mkdir` of domaincfg/ and the flat copy of the domain template
      (the `os.chdir` between them cannot fail once the mkdir has passed). */
  function StartOps(m: MeshRequest): seq<Op> {
    [MkdirOp(DomDir(m)), CopyFlatOp(DomTemplate(m), DomDir(m))]
  }

  function ExeLink(m: MeshRequest): seq<Op> {
    [SymlinkOp(m.domainExe, InDom(m, "make_domain_cfg.exe"))]
  }

  /** The bathymetry: two links to BFILE, or (killisf) a copy of BFILE run
      through nco, an existence check on the result and the removal of the
      two intermediate files. */
  function BathyOps(m: MeshRequest): seq<Op> {
    if !m.killisf then
      [SymlinkOp(m.bfile, InDom(m, "isf_draft_meter.nc")), SymlinkOp(m.bfile, InDom(m, "bathy_meter.nc"))]
    else KillIsfOps(m) + CleanupOps(m)
  }

  function KillIsfOps(m: MeshRequest): seq<Op> {
    [CopyOp(m.bfile, InDom(m, "bathy_meter_template.nc")),
     Produce(InDom(m, "bathy_meter_middle.nc"), m.nco.middle),
     Produce(InDom(m, "bathy_meter.nc"), m.nco.bathy)]
  }

  /** The check that stops the setup (`pdb.set_trace()`) when nco produced
      no `bathy_meter.nc`, then `os.remove` of the two intermediate files. */
  function CleanupOps(m: MeshRequest): seq<Op> {
    [RequireExists(InDom(m, "bathy_meter.nc"), HookFailed(InDom(m, "bathy_meter.nc"))),
     RemoveOp(InDom(m, "bathy_meter_middle.nc")),
     RemoveOp(InDom(m, "bathy_meter_template.nc"))]
  }

  /** The domain namelist patch, only when a patch is given. */
  function NmlOps(m: MeshRequest): seq<Op> {
    if m.patch.Some? then
      [RequireExists(DomNml(m), Missing(DomNml(m))),
       PatchOp(DomNml(m), m.patch.value, DomNmlNew(m)),
       MoveOp(DomNmlNew(m), DomNml(m))]
    else []
  }

  /** Everything `mkdomcfg` does. */
  function DomCfgOps(m: MeshRequest): seq<Op> {
    StartOps(m) + (ExeLink(m) + (BathyOps(m) + NmlOps(m)))
  }

  /** The dispatch of `mkmesh` on the mode word. */
  function MeshOps(m: MeshRequest): seq<Op> {
    if RunsDomCfg(m.ext.kind) then DomCfgOps(m)
    else if m.ext.kind == "rogue" then
      [RequireExists(m.ext.arg, Missing(m.ext.arg)), SymlinkOp(m.ext.arg, RogueLink(m))]
    else [Abort(UnknownDomainMode(m.ext.kind))]
  }

  // ---------------------------------------------------------------------
  // The procedures.

  /** `mkmesh`. With a mode that runs `mkdomcfg` and a fresh domaincfg/,
      the process is left inside domaincfg/. */
  method MakeMesh(fs: FileSystem, m: MeshRequest) returns (o: Outcome)
    requires fs.Valid()
    modifies fs
    ensures Run(fs.tree, o) == ExecAll(old(fs.tree), MeshOps(m))
    ensures fs.cwd == if RunsDomCfg(m.ext.kind) && DomDir(m) !in old(fs.tree) && DirAt(old(fs.tree), m.workdir)
                      then DomDir(m) else old(fs.cwd)
    ensures fs.Valid()
  {
    if RunsDomCfg(m.ext.kind) {
      o := MakeDomainConfig(fs, m);
    } else if m.ext.kind == "rogue" {
      o := LinkRogueDomain(fs, m);
    } else {
      MeshModes(fs.tree, m);
      o := Fail(UnknownDomainMode(m.ext.kind));
    }
  }

  /** The `rogue` mode: the given domain file must exist and is linked in. */
  method LinkRogueDomain(fs: FileSystem, m: MeshRequest) returns (o: Outcome)
    requires fs.Valid() && !RunsDomCfg(m.ext.kind) && m.ext.kind == "rogue"
    modifies fs
    ensures Run(fs.tree, o) == ExecAll(old(fs.tree), MeshOps(m))
    ensures fs.cwd == old(fs.cwd) && fs.Valid()
  {
    ghost var rest := MeshOps(m);
    o := fs.Step(RequireExists(m.ext.arg, Missing(m.ext.arg)), rest);
    if o.Fail? { return; }
    rest := rest[1..];
    o := fs.Step(SymlinkOp(m.ext.arg, RogueLink(m)), rest);
  }

  /** `mkdomcfg`. */
  method MakeDomainConfig(fs: FileSystem, m: MeshRequest) returns (o: Outcome)
    requires fs.Valid()
    modifies fs
    ensures Run(fs.tree, o) == ExecAll(old(fs.tree), DomCfgOps(m))
    ensures fs.cwd == if DomDir(m) !in old(fs.tree) && DirAt(old(fs.tree), m.workdir)
                      then DomDir(m) else old(fs.cwd)
    ensures fs.Valid()
  {
    ghost var a1 := BathyOps(m) + NmlOps(m);
    ghost var a0 := ExeLink(m) + a1;
    ghost var goal := ExecAll(fs.tree, DomCfgOps(m));
    ExecAllAppend(fs.tree, StartOps(m), a0);
    o := StartDomainDir(fs, m);
    if o.Fail? { return; }
    assert goal == ExecAll(fs.tree, a0);

    assert a0[0] == SymlinkOp(m.domainExe, InDom(m, "make_domain_cfg.exe")) && a0[1..] == a1;
    o := fs.Step(SymlinkOp(m.domainExe, fs.cwd + ["make_domain_cfg.exe"]), a0);
    if o.Fail? { return; }
    assert goal == ExecAll(fs.tree, a1);

    ExecAllAppend(fs.tree, BathyOps(m), NmlOps(m));
    o := WriteBathymetry(fs, m);
    if o.Fail? { return; }
    o := PatchDomainNamelist(fs, m);
  }

  /** `os.mkdir`, `os.chdir` and the template copy. */
  method StartDomainDir(fs: FileSystem, m: MeshRequest) returns (o: Outcome)
    requires fs.Valid()
    modifies fs
    ensures Run(fs.tree, o) == ExecAll(old(fs.tree), StartOps(m))
    ensures fs.cwd == if DomDir(m) !in old(fs.tree) && DirAt(old(fs.tree), m.workdir)
                      then DomDir(m) else old(fs.cwd)
    ensures fs.Valid()
  {
    var d := DomDir(m);
    ghost var rest := StartOps(m);
    ghost var t0 := fs.tree;
    o := fs.Perform(MkdirOp(d));
    assert ExecAll(t0, rest) == if o.Fail? then Run(fs.tree, o) else ExecAll(fs.tree, rest[1..]);
    if o.Fail? { return; }
    assert fs.tree == t0[d := Dir];
    var c := fs.Chdir(d);
    assert c.Pass? && fs.cwd == d;
    assert rest[1..] == [CopyFlatOp(DomTemplate(m), d)];
    o := fs.CopyTemplate(DomTemplate(m), d);
  }

  /** The bathymetry files, named relative to domaincfg/ where the Python
      code names them relatively. */
  method WriteBathymetry(fs: FileSystem, m: MeshRequest) returns (o: Outcome)
    requires fs.Valid() && fs.cwd == DomDir(m)
    modifies fs
    ensures Run(fs.tree, o) == ExecAll(old(fs.tree), BathyOps(m))
    ensures fs.cwd == old(fs.cwd) && fs.Valid()
  {
    ghost var rest := BathyOps(m);
    if !m.killisf {
      o := fs.Step(SymlinkOp(m.bfile, fs.cwd + ["isf_draft_meter.nc"]), rest);
      if o.Fail? { return; }
      rest := rest[1..];
      o := fs.Step(SymlinkOp(m.bfile, fs.cwd + ["bathy_meter.nc"]), rest);
    } else {
      ExecAllAppend(fs.tree, KillIsfOps(m), CleanupOps(m));
      o := KillIceShelf(fs, m);
      if o.Fail? { return; }
      o := RemoveIntermediates(fs, m);
    }
  }

  /** killisf: the template copy of BFILE and the nco command line, which
      runs in domaincfg/ and whose status is ignored. */
  method KillIceShelf(fs: FileSystem, m: MeshRequest) returns (o: Outcome)
    requires fs.Valid() && fs.cwd == DomDir(m)
    modifies fs
    ensures Run(fs.tree, o) == ExecAll(old(fs.tree), KillIsfOps(m))
    ensures fs.cwd == old(fs.cwd) && fs.Valid()
  {
    ghost var rest := KillIsfOps(m);
    o := fs.Step(CopyOp(m.bfile, InDom(m, "bathy_meter_template.nc")), rest);
    if o.Fail? { return; }
    rest := rest[1..];
    o := fs.Step(Produce(fs.cwd + ["bathy_meter_middle.nc"], m.nco.middle), rest);
    if o.Fail? { return; }
    rest := rest[1..];
    o := fs.Step(Produce(fs.cwd + ["bathy_meter.nc"], m.nco.bathy), rest);
  }

  method RemoveIntermediates(fs: FileSystem, m: MeshRequest) returns (o: Outcome)
    requires fs.Valid()
    modifies fs
    ensures Run(fs.tree, o) == ExecAll(old(fs.tree), CleanupOps(m))
    ensures fs.cwd == old(fs.cwd) && fs.Valid()
  {
    ghost var rest := CleanupOps(m);
    o := fs.Step(RequireExists(InDom(m, "bathy_meter.nc"), HookFailed(InDom(m, "bathy_meter.nc"))), rest);
    if o.Fail? { return; }
    rest := rest[1..];
    o := fs.Step(RemoveOp(InDom(m, "bathy_meter_middle.nc")), rest);
    if o.Fail? { return; }
    rest := rest[1..];
    o := fs.Step(RemoveOp(InDom(m, "bathy_meter_template.nc")), rest);
  }

  method PatchDomainNamelist(fs: FileSystem, m: MeshRequest) returns (o: Outcome)
    requires fs.Valid()
    modifies fs
    ensures Run(fs.tree, o) == ExecAll(old(fs.tree), NmlOps(m))
    ensures fs.cwd == old(fs.cwd) && fs.Valid()
  {
    ghost var rest := NmlOps(m);
    if m.patch.Some? {
      o := fs.Step(RequireExists(DomNml(m), Missing(DomNml(m))), rest);
      if o.Fail? { return; }
      rest := rest[1..];
      o := fs.Step(PatchOp(DomNml(m), m.patch.value, DomNmlNew(m)), rest);
      if o.Fail? { return; }
      rest := rest[1..];
      assert rest[1..] == [];
      o := fs.Step(MoveOp(DomNmlNew(m), DomNml(m)), rest);
    } else {
      o := Pass;
    }
  }

  // ---------------------------------------------------------------------
  // What each mode and each step does.

  /** The staged drivers run make_domain_cfg.exe exactly when `mkmesh`
      prepared domaincfg/ for it. */
  lemma PrologueMatchesMesh(m: MeshRequest)
    ensures PrologueFor(m.ext).MakeDomain? <==> MeshOps(m)[0] == MkdirOp(DomDir(m))
  {
    if RunsDomCfg(m.ext.kind) {
      assert MeshOps(m)[0] == StartOps(m)[0];
    }
  }

  /** 'rogue': the external file must exist and becomes `domain_cfg.nc` in
      the run directory; any mode word but '', 'hacked' and 'rogue' stops
      the setup with nothing changed. */
  lemma MeshModes(t: Tree, m: MeshRequest)
    ensures m.ext.kind == "rogue" && !Exists(t, m.ext.arg) ==>
              ExecAll(t, MeshOps(m)) == Run(t, Fail(Missing(m.ext.arg)))
    ensures m.ext.kind == "rogue" && Exists(t, m.ext.arg) && DirAt(t, m.workdir) && RogueLink(m) !in t ==>
              ExecAll(t, MeshOps(m)) == Run(t[RogueLink(m) := Link(m.ext.arg)], Pass)
    ensures m.ext.kind == "rogue" && Exists(t, m.ext.arg) && RogueLink(m) in t ==>
              ExecAll(t, MeshOps(m)) == Run(t, Fail(AlreadyExists(RogueLink(m))))
    ensures !RunsDomCfg(m.ext.kind) && m.ext.kind != "rogue" ==>
              ExecAll(t, MeshOps(m)) == Run(t, Fail(UnknownDomainMode(m.ext.kind)))
  {
    var ops := MeshOps(m);
    if m.ext.kind == "rogue" {
      if Exists(t, m.ext.arg) {
        ExecPass(t, ops, t);
        ExecOne(t, ops[1]);
        assert ops[1..] == [ops[1]];
      } else {
        ExecFail(t, ops);
      }
    } else if !RunsDomCfg(m.ext.kind) {
      ExecOne(t, ops[0]);
    }
  }

  /** A domaincfg/ left from an earlier attempt makes `os.mkdir` raise before
      anything is copied. */
  lemma DomainDirTaken(t: Tree, m: MeshRequest)
    requires RunsDomCfg(m.ext.kind) && DomDir(m) in t
    ensures ExecAll(t, MeshOps(m)) == Run(t, Fail(AlreadyExists(DomDir(m))))
  {
    ExecFail(t, MeshOps(m));
  }

  /** In a fresh domaincfg/ the domain template is copied by the same rule
      as the run template: exactly its top-level regular files, each under
      its own name; an empty template is fatal and leaves the new directory
      behind. */
  lemma DomainStartExact(t: Tree, m: MeshRequest)
    requires WellFormed(t) && DirAt(t, m.workdir) && DomDir(m) !in t && DirAt(t, DomTemplate(m))
    requires forall n :: DomTemplate(m) + [n] in t && t[DomTemplate(m) + [n]].Link? ==>
               !Below(t[DomTemplate(m) + [n]].target, DomDir(m))
    ensures var u := t[DomDir(m) := Dir]; var names := Glob(u, DomTemplate(m));
      ExecAll(t, StartOps(m)) ==
        if names == [] then Run(u, Fail(EmptyGlob(DomTemplate(m))))
        else Run(u + CopiedFiles(u, DomTemplate(m), DomDir(m), names), Pass)
  {
    var d, src := DomDir(m), DomTemplate(m);
    var u := t[d := Dir];
    var ops := StartOps(m);
    assert Exec(t, ops[0]) == Run(u, Pass);
    ExecPass(t, ops, u);
    assert ops[1..] == [CopyFlatOp(src, d)];
    ExecCopyFlat(u, src, d);
    DomainDirFresh(t, m);
    FlatCopyExact(u, src, d);
  }

  lemma DomainDirFresh(t: Tree, m: MeshRequest)
    requires WellFormed(t) && DirAt(t, m.workdir) && DomDir(m) !in t && DirAt(t, DomTemplate(m))
    requires forall n :: DomTemplate(m) + [n] in t && t[DomTemplate(m) + [n]].Link? ==>
               !Below(t[DomTemplate(m) + [n]].target, DomDir(m))
    ensures FreshCopy(t[DomDir(m) := Dir], DomTemplate(m), DomDir(m))
  {
    var d, src := DomDir(m), DomTemplate(m);
    var u := t[d := Dir];
    assert Parent(d) == m.workdir;
    SetKeepsWellFormed(t, d, Dir);
    NothingBelowAbsent(t, d);
    assert src in t;
    assert !Below(src, d);
    forall n | src + [n] in u ensures d + [n] !in u {
      assert Below(d + [n], d) by { assert (d + [n])[..|d|] == d; }
    }
    forall n | src + [n] in u && u[src + [n]].Link? ensures !Below(u[src + [n]].target, d) {
      assert src + [n] != d;
    }
  }

  /** Without killisf both bathymetry names are links to BFILE, unless the
      template already supplied one of them, which makes `os.symlink` raise. */
  lemma BathyLinks(v: Tree, m: MeshRequest)
    requires !m.killisf && DirAt(v, DomDir(m))
    ensures var a, b := InDom(m, "isf_draft_meter.nc"), InDom(m, "bathy_meter.nc");
      && (a !in v && b !in v ==>
            ExecAll(v, BathyOps(m)) == Run(v[a := Link(m.bfile)][b := Link(m.bfile)], Pass))
      && (a in v || b in v ==> ExecAll(v, BathyOps(m)).outcome.Fail?)
  {
    var a, b := InDom(m, "isf_draft_meter.nc"), InDom(m, "bathy_meter.nc");
    var ops := BathyOps(m);
    assert ops[1..] == [ops[1]];
    if a in v {
      ExecFail(v, ops);
    } else {
      assert a != b by { assert a[|a| - 1] != b[|b| - 1]; }
      ExecPass(v, ops, v[a := Link(m.bfile)]);
      ExecOne(v[a := Link(m.bfile)], ops[1]);
    }
  }

  /** What an external tool's write leaves at a fresh name: the file it
      wrote, or nothing. */
  function Produced(v: Tree, p: Path, out: Option<Content>): Tree {
    if out.Some? then v[p := File(out.value)] else v
  }

  /** The tree after the template copy of BFILE and the nco command line. */
  function AfterNco(v: Tree, m: MeshRequest): Tree
    requires IsFile(v, m.bfile)
  {
    var tpl := v[InDom(m, "bathy_meter_template.nc") := File(ContentOf(v, m.bfile))];
    Produced(Produced(tpl, InDom(m, "bathy_meter_middle.nc"), m.nco.middle), InDom(m, "bathy_meter.nc"), m.nco.bathy)
  }

  /** The conditions under which the ice-shelf removal starts cleanly: BFILE
      is a regular file other than the template copy, and none of the three
      working names is taken in domaincfg/. */
  ghost predicate NcoReady(v: Tree, m: MeshRequest) {
    && DirAt(v, DomDir(m)) && IsFile(v, m.bfile)
    && Resolve(v, m.bfile) != InDom(m, "bathy_meter_template.nc")
    && InDom(m, "bathy_meter_template.nc") !in v
    && InDom(m, "bathy_meter_middle.nc") !in v
    && InDom(m, "bathy_meter.nc") !in v
  }

  lemma NcoRun(v: Tree, m: MeshRequest)
    requires m.killisf && NcoReady(v, m)
    ensures ExecAll(v, KillIsfOps(m)) == Run(AfterNco(v, m), Pass)
  {
    var tp, mid, bathy := InDom(m, "bathy_meter_template.nc"), InDom(m, "bathy_meter_middle.nc"), InDom(m, "bathy_meter.nc");
    assert tp[|tp| - 1] != mid[|mid| - 1] && tp[|tp| - 1] != bathy[|bathy| - 1] && mid[|mid| - 1] != bathy[|bathy| - 1];
    var ops := KillIsfOps(m);
    var v1 := v[tp := File(ContentOf(v, m.bfile))];
    var v2 := Produced(v1, mid, m.nco.middle);
    assert Exec(v, ops[0]) == Run(v1, Pass);
    ExecPass(v, ops, v1);
    assert ops[1..][1..] == [ops[2]];
    assert Exec(v1, ops[1]) == Run(v2, Pass);
    ExecPass(v1, ops[1..], v2);
    assert Exec(v2, ops[2]) == Run(AfterNco(v, m), Pass);
    ExecOne(v2, ops[2]);
  }

  /** The check on `bathy_meter.nc` and the two removals. */
  lemma CleanupRun(u: Tree, m: MeshRequest)
    ensures var mid, tp, bathy := InDom(m, "bathy_meter_middle.nc"), InDom(m, "bathy_meter_template.nc"), InDom(m, "bathy_meter.nc");
      && (!Exists(u, bathy) ==> ExecAll(u, CleanupOps(m)) == Run(u, Fail(HookFailed(bathy))))
      && (Exists(u, bathy) && mid !in u ==> ExecAll(u, CleanupOps(m)) == Run(u, Fail(Missing(mid))))
      && (Exists(u, bathy) && mid in u && !u[mid].Dir? && tp in u && !u[tp].Dir? ==>
            ExecAll(u, CleanupOps(m)) == Run(u - {mid} - {tp}, Pass))
  {
    var mid, tp, bathy := InDom(m, "bathy_meter_middle.nc"), InDom(m, "bathy_meter_template.nc"), InDom(m, "bathy_meter.nc");
    var ops := CleanupOps(m);
    assert ops[1..][1..] == [ops[2]];
    if Exists(u, bathy) {
      ExecPass(u, ops, u);
      if mid in u && !u[mid].Dir? {
        assert tp != mid by { assert tp[|tp| - 1] != mid[|mid| - 1]; }
        ExecPass(u, ops[1..], u - {mid});
        ExecOne(u - {mid}, ops[2]);
      } else {
        ExecFail(u, ops[1..]);
      }
    } else {
      ExecFail(u, ops);
    }
  }

  /** killisf: on success `bathy_meter.nc` holds what nco wrote and the two
      intermediate files are gone; without nco's result the setup stops
      (the debugger prompt) with both intermediates still there; with a
      result but no middle file `os.remove` raises. */
  lemma KillIsfOutcome(v: Tree, m: MeshRequest)
    requires m.killisf && NcoReady(v, m)
    ensures var bathy, mid := InDom(m, "bathy_meter.nc"), InDom(m, "bathy_meter_middle.nc");
      ExecAll(v, BathyOps(m)) ==
        if m.nco.bathy.None? then Run(AfterNco(v, m), Fail(HookFailed(bathy)))
        else if m.nco.middle.None? then Run(AfterNco(v, m), Fail(Missing(mid)))
        else Run(v[bathy := File(m.nco.bathy.value)], Pass)
  {
    var tp, mid, bathy := InDom(m, "bathy_meter_template.nc"), InDom(m, "bathy_meter_middle.nc"), InDom(m, "bathy_meter.nc");
    assert tp[|tp| - 1] != mid[|mid| - 1] && tp[|tp| - 1] != bathy[|bathy| - 1] && mid[|mid| - 1] != bathy[|bathy| - 1];
    ExecAllAppend(v, KillIsfOps(m), CleanupOps(m));
    NcoRun(v, m);
    var u := AfterNco(v, m);
    CleanupRun(u, m);
    if m.nco.bathy.Some? {
      assert Exists(u, bathy);
      if m.nco.middle.Some? {
        IntermediatesGone(v, m);
      }
    } else {
      assert bathy !in u;
    }
  }

  lemma IntermediatesGone(v: Tree, m: MeshRequest)
    requires m.killisf && NcoReady(v, m) && m.nco.middle.Some? && m.nco.bathy.Some?
    ensures AfterNco(v, m) - {InDom(m, "bathy_meter_middle.nc")} - {InDom(m, "bathy_meter_template.nc")} ==
              v[InDom(m, "bathy_meter.nc") := File(m.nco.bathy.value)]
  {
    var tp, mid, bathy := InDom(m, "bathy_meter_template.nc"), InDom(m, "bathy_meter_middle.nc"), InDom(m, "bathy_meter.nc");
    assert tp[|tp| - 1] != bathy[|bathy| - 1] && mid[|mid| - 1] != bathy[|bathy| - 1];
  }

  /** With a patch, `domaincfg/namelist_cfg` is replaced by its patched
      version and the scratch file is gone. */
  lemma DomainNamelistPatched(v: Tree, m: MeshRequest, d: Namelist.Doc)
    requires m.patch.Some? && DirAt(v, DomDir(m))
    requires DomNml(m) in v && v[DomNml(m)] == File(Nml(d))
    requires DomNmlNew(m) !in v || v[DomNmlNew(m)].File?
    ensures ExecAll(v, NmlOps(m)) ==
      Run((v - {DomNmlNew(m)})[DomNml(m) := File(Nml(Namelist.Apply(d, m.patch.value)))], Pass)
  {
    var nml, nw := DomNml(m), DomNmlNew(m);
    assert nml != nw by { assert nml[|nml| - 1] != nw[|nw| - 1]; }
    var ops := NmlOps(m);
    var doc := File(Nml(Namelist.Apply(d, m.patch.value)));
    var v1 := v[nw := doc];
    assert v1 - {nw} == v - {nw};
    assert ops[1..][1..] == [ops[2]];
    ExecPass(v, ops, v);
    Staging.PatchInto(v, nml, m.patch.value, nw, d);
    ExecPass(v, ops[1..], v1);
    Staging.MoveInto(v1, nw, nml);
    ExecOne(v1, ops[2]);
  }

  /** Without a patch nothing happens; with one, a missing namelist_cfg
      is fatal before anything is written. */
  lemma DomainNamelistCases(v: Tree, m: MeshRequest)
    ensures m.patch.None? ==> ExecAll(v, NmlOps(m)) == Run(v, Pass)
    ensures m.patch.Some? && !Exists(v, DomNml(m)) ==> ExecAll(v, NmlOps(m)) == Run(v, Fail(Missing(DomNml(m))))
  {
    if m.patch.Some? && !Exists(v, DomNml(m)) {
      ExecFail(v, NmlOps(m));
    }
  }
}
