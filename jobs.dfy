/** What the three generated drivers do when the scheduler runs them in the
    run directory: the domain prologue, the state file `time.year.step`
    that makes the year loops resumable, the loops themselves, the
    production driver's switch to production output and its final check.

    The model programs the drivers run (preNEMO.py, nemo.exe, postNEMO.py,
    the post-processing wrappers) are events in the job's log; the files
    the prologue's tools write are parameters. The scheduler's wall-clock
    limit is a budget of loop steps: when it runs out the job is killed
    where it stands. Each `cd` of a driver is folded into the paths: the
    Python code writes `cd $cwd` before the state file is read and after
    every year, and `home` is the directory that command lands in. */
module Jobs {
  import opened Paths
  import opened Outcomes
  import opened Text
  import opened Fs
  import opened Ops
  import opened Disk
  import opened Drivers
  import Namelist
  import Staging

  // ---------------------------------------------------------------------
  // The state file.

  function StateFile(home: Path): (p: Path)
    ensures p != [] && Parent(p) == home
  {
    home + ["time.year.step"]
  }

  /** `echo 'year='$year`. */
  function YearLine(y: nat): string {
    "year=" + Dec(y)
  }

  function StateContent(y: nat): Content {
    Text([YearLine(y)])
  }

  /** The year a `year=<n>` line sets when sourced, for the decimal form
      `$[$year+1]` prints. */
  function ParseYear(s: string): Option<nat> {
    if |s| > 5 && s[..5] == "year=" && Canonical(s[5..]) then Some(DigitsValue(s[5..])) else None
  }

  /** A written line reads back as its year, and only the line written
      for a year reads back as that year. */
  lemma YearLineRoundTrip(y: nat, s: string)
    ensures ParseYear(YearLine(y)) == Some(y)
    ensures ParseYear(s) == Some(y) ==> s == YearLine(y)
  {
    var l := YearLine(y);
    assert l[..5] == "year=" && l[5..] == Dec(y);
    DecValue(y);
    if ParseYear(s) == Some(y) {
      DecOfDigits(s[5..]);
      assert s == s[..5] + s[5..];
    }
  }

  /** `source time.year.step`: the file the drivers write sets the year;
      anything else leaves `$year` unset. */
  function StateYear(c: Content): Option<nat> {
    if c.Text? && |c.lines| == 1 then ParseYear(c.lines[0]) else None
  }

  datatype StateRead = StateRead(tree: Tree, year: Option<nat>)

  /** `if [ -f time.year.step ]; then source ...; else echo 'year=1' >
      time.year.step; source ...; fi`. */
  function ReadState(t: Tree, home: Path): StateRead {
    var s := StateFile(home);
    if IsFile(t, s) then StateRead(t, StateYear(ContentOf(t, s)))
    else
      var r := WriteFile(t, s, StateContent(1));
      if r.outcome.Pass? then StateRead(r.tree, Some(1)) else StateRead(t, None)
  }

  /** The tree a loop leaves when it started in year y and wrote year r
      last (nothing when no year finished). */
  function Persisted(t: Tree, home: Path, y: nat, r: nat): Tree {
    if r == y then t else WriteFile(t, StateFile(home), StateContent(r)).tree
  }

  /** A first run starts from year 1 and leaves the state file holding it. */
  lemma FreshStart(t: Tree, home: Path)
    requires DirAt(t, home) && StateFile(home) !in t
    ensures ReadState(t, home) == StateRead(t[StateFile(home) := File(StateContent(1))], Some(1))
  {
  }

  /** Once read, the state file is there and holds the year read. */
  lemma ReadStateSettles(t: Tree, home: Path)
    requires ReadState(t, home).year.Some?
    ensures var r := ReadState(t, home);
      IsFile(r.tree, StateFile(home)) && StateYear(ContentOf(r.tree, StateFile(home))) == r.year
  {
    var s := StateFile(home);
    if !IsFile(t, s) {
      var d := Resolve(t, s);
      var u := t[d := File(StateContent(1))];
      assert WriteFile(t, s, StateContent(1)).tree == u;
      assert Resolve(u, s) == d;
      YearLineRoundTrip(1, "");
    }
  }

  /** Rewriting the state file keeps only the last write. */
  lemma WriteTwice(t: Tree, p: Path, a: Content, b: Content)
    ensures WriteFile(WriteFile(t, p, a).tree, p, b).tree == WriteFile(t, p, b).tree
  {
    var r := WriteFile(t, p, a);
    if r.outcome.Pass? {
      var d := Resolve(t, p);
      assert r.tree == t[d := File(a)];
      assert Resolve(r.tree, p) == d;
    }
  }

  lemma PersistAgain(t: Tree, home: Path, y0: nat, y: nat)
    requires y0 <= y
    ensures Persisted(t, home, y0, y + 1) ==
              WriteFile(Persisted(t, home, y0, y), StateFile(home), StateContent(y + 1)).tree
  {
    if y > y0 {
      WriteTwice(t, StateFile(home), StateContent(y), StateContent(y + 1));
    }
  }

  /** What a loop leaves in the state file is what the next job reads. */
  lemma PersistedReadsBack(t: Tree, home: Path, y: nat, r: nat)
    requires WellFormed(t) && IsFile(t, StateFile(home)) && StateYear(ContentOf(t, StateFile(home))) == Some(y)
    ensures ReadState(Persisted(t, home, y, r), home) == StateRead(Persisted(t, home, y, r), Some(r))
  {
    if r != y {
      OverwriteFile(t, StateFile(home), StateContent(r));
      YearLineRoundTrip(r, "");
    }
  }

  /** Writing over an existing file succeeds and the file then holds what
      was written. */
  lemma OverwriteFile(t: Tree, p: Path, c: Content)
    requires WellFormed(t) && IsFile(t, p)
    ensures var u := WriteFile(t, p, c); u.outcome.Pass? && IsFile(u.tree, p) && ContentOf(u.tree, p) == c
  {
    var d := Resolve(t, p);
    assert d in t && t[d].File?;
    assert d != [] by { assert DirAt(t, []); }
    assert DirAt(t, Parent(d));
    var u := t[d := File(c)];
    assert Resolve(u, p) == d;
  }

  // ---------------------------------------------------------------------
  // The job: its log of events and what is left of its time.

  class Job {
    var log: seq<Event>
    var left: nat

    constructor (budget: nat)
      ensures log == [] && left == budget
    {
      log := [];
      left := budget;
    }

    /** One step of a year loop, if the time limit has not been reached. */
    method Emit(e: Event) returns (ok: bool)
      modifies this
      ensures ok <==> old(left) > 0
      ensures log == if ok then old(log) + [e] else old(log)
      ensures left == if ok then old(left) - 1 else 0
    {
      if left == 0 {
        ok := false;
      } else {
        ok := true;
        log := log + [e];
        left := left - 1;
      }
    }

    /** The events of one pass of the loop body, cut at the time limit. */
    method Year(y: nat) returns (ok: bool)
      modifies this
      ensures ok <==> old(left) >= 5
      ensures log == old(log) + Take(Iteration(y), old(left))
      ensures left == old(left) - Min(old(left), 5)
    {
      ghost var it := Iteration(y);
      ok := Emit(PreNemo(y));
      if !ok { return; }
      ok := Emit(Nemo(y));
      if !ok { assert Take(it, 1) == [it[0]]; return; }
      ok := Emit(PostNemo(y));
      if !ok { assert Take(it, 2) == [it[0], it[1]]; return; }
      ok := Emit(Wait(y));
      if !ok { assert Take(it, 3) == [it[0], it[1], it[2]]; return; }
      ok := Emit(Persist(y + 1));
      if !ok { assert Take(it, 4) == [it[0], it[1], it[2], it[3]]; return; }
    }

    /** A step outside the year loops. */
    method Record(e: Event)
      modifies this
      ensures log == old(log) + [e] && left == old(left)
    {
      log := log + [e];
    }
  }

  // ---------------------------------------------------------------------
  // The year loop.

  /** One pass of the loop body for year y: preNEMO.py, nemo.exe,
      postNEMO.py, `wait`, then `year=$[$year+1]` and the new year written
      to the state file. The job may be killed between any two steps. */
  method RunYear(fs: FileSystem, job: Job, home: Path, year: nat) returns (ok: bool)
    requires fs.Valid()
    modifies fs, job
    ensures ok <==> old(job.left) >= 5
    ensures ok ==> job.log == old(job.log) + Iteration(year) && job.left == old(job.left) - 5
    ensures ok ==> fs.tree == WriteFile(old(fs.tree), StateFile(home), StateContent(year + 1)).tree
    ensures !ok ==> job.log == old(job.log) + Take(Iteration(year), old(job.left)) && job.left == 0
    ensures !ok ==> fs.tree == old(fs.tree)
    ensures fs.cwd == old(fs.cwd) && fs.Valid()
  {
    ok := job.Year(year);
    if !ok { return; }
    var o := fs.Perform(WriteOp(StateFile(home), StateContent(year + 1)));
  }


  /** `while [ $year -lt bound ]` from year y0. The log grows by the
      uninterrupted loop's events cut at the time limit, and the state file
      ends holding the year a resubmitted job resumes from. */
  method YearLoop(fs: FileSystem, job: Job, home: Path, y0: nat, bound: int) returns (year: nat, done: bool)
    requires fs.Valid()
    modifies fs, job
    ensures job.log == old(job.log) + Take(LoopEvents(y0, bound), old(job.left))
    ensures job.left == old(job.left) - Min(old(job.left), |LoopEvents(y0, bound)|)
    ensures year == ResumeYear(y0, bound, old(job.left))
    ensures done <==> year == LoopExit(y0, bound)
    ensures fs.tree == Persisted(old(fs.tree), home, y0, year)
    ensures fs.cwd == old(fs.cwd) && fs.Valid()
  {
    ghost var k, log0, t0 := job.left, job.log, fs.tree;
    LoopLength(y0, bound);
    year := y0;
    while year < bound
      invariant y0 <= year <= LoopExit(y0, bound)
      invariant 5 * (year - y0) <= k && job.left == k - 5 * (year - y0)
      invariant job.log == log0 + LoopEvents(y0, year)
      invariant fs.tree == Persisted(t0, home, y0, year)
      invariant fs.cwd == old(fs.cwd) && fs.Valid()
      decreases bound - year
    {
      ghost var before, j := job.log, job.left;
      var ok := RunYear(fs, job, home, year);
      if !ok {
        Preempted(y0, bound, k, year);
        LogCut(log0, before, job.log, y0, bound, k, year);
        done := false;
        return;
      }
      LogStep(log0, before, job.log, y0, year);
      PersistAgain(t0, home, y0, year);
      year := year + 1;
    }
    LoopDone(y0, bound, k, year);
    done := true;
  }

  lemma LogStep(log0: seq<Event>, before: seq<Event>, after: seq<Event>, y0: nat, y: nat)
    requires y0 <= y && before == log0 + LoopEvents(y0, y) && after == before + Iteration(y)
    ensures after == log0 + LoopEvents(y0, y + 1)
  {
    LoopSnoc(y0, y);
  }

  lemma LogCut(log0: seq<Event>, before: seq<Event>, after: seq<Event>, y0: nat, bound: int, k: nat, y: nat)
    requires y0 <= y < bound && 5 * (y - y0) <= k < 5 * (y - y0) + 5
    requires before == log0 + LoopEvents(y0, y) && after == before + Take(Iteration(y), k - 5 * (y - y0))
    ensures after == log0 + Take(LoopEvents(y0, bound), k)
  {
    Preempted(y0, bound, k, y);
  }

  lemma LoopSnoc(y0: nat, y: nat)
    requires y0 <= y
    ensures LoopEvents(y0, y + 1) == LoopEvents(y0, y) + Iteration(y)
  {
    LoopSplit(y0, y, y + 1);
    assert LoopEvents(y, y + 1) == Iteration(y) + LoopEvents(y + 1, y + 1);
  }

  /** Killed in year y, one to four steps into it or before its first. */
  lemma Preempted(y0: nat, bound: int, k: nat, y: nat)
    requires y0 <= y < bound && 5 * (y - y0) <= k < 5 * (y - y0) + 5
    ensures Take(LoopEvents(y0, bound), k) == LoopEvents(y0, y) + Take(Iteration(y), k - 5 * (y - y0))
    ensures ResumeYear(y0, bound, k) == y
    ensures Min(k, |LoopEvents(y0, bound)|) == k
  {
    LoopLength(y0, bound);
    assert k / 5 == y - y0;
    ResumeTrace(y0, bound, k);
  }

  /** The loop ran to its end within the time limit. */
  lemma LoopDone(y0: nat, bound: int, k: nat, y: nat)
    requires y == LoopExit(y0, bound) && 5 * (y - y0) <= k
    ensures Take(LoopEvents(y0, bound), k) == LoopEvents(y0, y) == LoopEvents(y0, bound)
    ensures ResumeYear(y0, bound, k) == y
    ensures Min(k, |LoopEvents(y0, bound)|) == |LoopEvents(y0, bound)|
  {
    LoopLength(y0, bound);
    LoopSplit(y0, y, bound);
  }

  // ---------------------------------------------------------------------
  // The domain prologue and the production transition.

  /** What the prologue's programs write: make_domain_cfg.exe's
      `domain_cfg.nc` in domaincfg/, the hook's `domain_cfg_hckd.nc`; None
      where a program writes nothing. */
  datatype Tools = Tools(domain: Option<Content>, hacked: Option<Content>)

  function Built(w: Path): Path { w + ["domaincfg", "domain_cfg.nc"] }
  function DomainFile(w: Path): Path { w + ["domain_cfg.nc"] }
  function HackedFile(w: Path): Path { w + ["domain_cfg_hckd.nc"] }

  /** `cd domaincfg; srun ./make_domain_cfg.exe; if [ -f domain_cfg.nc ];
      then mv domain_cfg.nc ../; else exit 1; fi; cd ..`, then the hook. */
  function PrologueOps(w: Path, p: Prologue, tools: Tools): seq<Op> {
    if p.NoDomainStep? then []
    else BuildOps(w, tools) + (if p.hook.Some? then HookOps(w, tools) else [])
  }

  function BuildOps(w: Path, tools: Tools): seq<Op> {
    [Produce(Built(w), tools.domain),
     RequireFile(Built(w), HookFailed(Built(w))),
     Unchecked(MoveOp(Built(w), DomainFile(w)))]
  }

  /** `python hook domain_cfg.nc domain_cfg_hckd.nc; if [ -f
      domain_cfg_hckd.nc ]; then rm domain_cfg.nc; mv domain_cfg_hckd.nc
      domain_cfg.nc; else exit 1; fi`. */
  function HookOps(w: Path, tools: Tools): seq<Op> {
    [Produce(HackedFile(w), tools.hacked),
     RequireFile(HackedFile(w), HookFailed(HackedFile(w)))]
    + ReplaceOps(w)
  }

  function ReplaceOps(w: Path): seq<Op> {
    [Unchecked(RemoveOp(DomainFile(w))),
     Unchecked(MoveOp(HackedFile(w), DomainFile(w)))]
  }

  /** Between the phases: the production output definitions replace the
      spin-up ones, the namelist patch turning on the momentum trend
      diagnostics is written to `namelist_meh`, its presence is checked and
      it replaces `namelist_ref`. The two swaps and the check are relative
      to `home`; the patch and the last move name the run directory. */
  function TransitionOps(w: Path, home: Path): seq<Op> {
    [Unchecked(MoveOp(home + ["file_def_nemo-oce_asfmo.xml"], home + ["file_def_nemo-oce.xml"])),
     Unchecked(MoveOp(home + ["field_def_nemo-oce_asfmo.xml"], home + ["field_def_nemo-oce.xml"]))]
    + DiagnosticsOps(w, home)
  }

  function DiagnosticsOps(w: Path, home: Path): seq<Op> {
    [Unchecked(PatchOp(w + ["namelist_cfg"], Namelist.DynTrdPatch(), w + ["namelist_meh"])),
     RequireFile(home + ["namelist_meh"], HookFailed(home + ["namelist_meh"])),
     Unchecked(MoveOp(w + ["namelist_meh"], w + ["namelist_ref"]))]
  }

  method RunPrologue(fs: FileSystem, w: Path, p: Prologue, tools: Tools) returns (o: Outcome)
    requires fs.Valid()
    modifies fs
    ensures Run(fs.tree, o) == ExecAll(old(fs.tree), PrologueOps(w, p, tools))
    ensures fs.cwd == old(fs.cwd) && fs.Valid()
  {
    if p.NoDomainStep? {
      o := Pass;
      return;
    }
    ghost var hook: seq<Op> := if p.hook.Some? then HookOps(w, tools) else [];
    ghost var rest := PrologueOps(w, p, tools);
    assert rest == BuildOps(w, tools) + hook;
    o := fs.Step(Produce(Built(w), tools.domain), rest);
    if o.Fail? { return; }
    rest := rest[1..];
    o := fs.Step(RequireFile(Built(w), HookFailed(Built(w))), rest);
    if o.Fail? { return; }
    rest := rest[1..];
    fs.StepUnchecked(MoveOp(Built(w), DomainFile(w)), rest);
    rest := rest[1..];
    assert rest == hook;
    if p.hook.Some? {
      o := RunHook(fs, w, tools);
    } else {
      o := Pass;
    }
  }

  method RunHook(fs: FileSystem, w: Path, tools: Tools) returns (o: Outcome)
    requires fs.Valid()
    modifies fs
    ensures Run(fs.tree, o) == ExecAll(old(fs.tree), HookOps(w, tools))
    ensures fs.cwd == old(fs.cwd) && fs.Valid()
  {
    ghost var rest := HookOps(w, tools);
    o := fs.Step(Produce(HackedFile(w), tools.hacked), rest);
    if o.Fail? { return; }
    o := fs.Step(RequireFile(HackedFile(w), HookFailed(HackedFile(w))), rest[1..]);
    if o.Fail? { return; }
    assert rest[1..][1..] == ReplaceOps(w);
    ReplaceDomain(fs, w);
  }

  /** `rm domain_cfg.nc; mv domain_cfg_hckd.nc domain_cfg.nc`. */
  method ReplaceDomain(fs: FileSystem, w: Path)
    requires fs.Valid()
    modifies fs
    ensures Run(fs.tree, Pass) == ExecAll(old(fs.tree), ReplaceOps(w))
    ensures fs.cwd == old(fs.cwd) && fs.Valid()
  {
    ghost var rest := ReplaceOps(w);
    fs.StepUnchecked(RemoveOp(DomainFile(w)), rest);
    fs.StepUnchecked(MoveOp(HackedFile(w), DomainFile(w)), rest[1..]);
    assert rest[1..][1..] == [];
  }

  method RunTransition(fs: FileSystem, w: Path, home: Path) returns (o: Outcome)
    requires fs.Valid()
    modifies fs
    ensures Run(fs.tree, o) == ExecAll(old(fs.tree), TransitionOps(w, home))
    ensures fs.cwd == old(fs.cwd) && fs.Valid()
  {
    ghost var rest := TransitionOps(w, home);
    fs.StepUnchecked(MoveOp(home + ["file_def_nemo-oce_asfmo.xml"], home + ["file_def_nemo-oce.xml"]), rest);
    rest := rest[1..];
    fs.StepUnchecked(MoveOp(home + ["field_def_nemo-oce_asfmo.xml"], home + ["field_def_nemo-oce.xml"]), rest);
    rest := rest[1..];
    assert rest == DiagnosticsOps(w, home);
    fs.StepUnchecked(PatchOp(w + ["namelist_cfg"], Namelist.DynTrdPatch(), w + ["namelist_meh"]), rest);
    rest := rest[1..];
    o := fs.Step(RequireFile(home + ["namelist_meh"], HookFailed(home + ["namelist_meh"])), rest);
    if o.Fail? { return; }
    rest := rest[1..];
    fs.StepUnchecked(MoveOp(w + ["namelist_meh"], w + ["namelist_ref"]), rest);
    rest := rest[1..];
    assert rest == [];
  }

  method ReadStateFile(fs: FileSystem, home: Path) returns (year: Option<nat>)
    requires fs.Valid()
    modifies fs
    ensures ReadState(old(fs.tree), home) == StateRead(fs.tree, year)
    ensures fs.cwd == old(fs.cwd) && fs.Valid()
  {
    var s := StateFile(home);
    if IsFile(fs.tree, s) {
      year := StateYear(ContentOf(fs.tree, s));
    } else {
      var o := fs.Perform(WriteOp(s, StateContent(1)));
      year := if o.Pass? then Some(1) else None;
    }
  }

  // ---------------------------------------------------------------------
  // The drivers.

  /** How a job ends: the tree, Pass or why it stopped, its log, and the
      year `$year` holds at the end (None when the state file set none). */
  datatype JobResult = JobResult(tree: Tree, outcome: Outcome, log: seq<Event>, year: Option<nat>)

  /** The year the loops start from: what the state file holds once the
      prologue has passed. */
  function StartYear(t: Tree, w: Path, home: Path, p: Prologue, tools: Tools): Option<nat> {
    var pro := ExecAll(t, PrologueOps(w, p, tools));
    if pro.outcome.Fail? then None else ReadState(pro.tree, home).year
  }

  /** goNEMOlong.sh with a time limit of k loop steps. Without a year in
      the state file the loop test fails and the script ends normally. */
  function LongRun(t: Tree, w: Path, home: Path, d: Driver, tools: Tools, k: nat): JobResult
    requires d.Long?
  {
    var pro := ExecAll(t, PrologueOps(w, d.prologue, tools));
    if pro.outcome.Fail? then JobResult(pro.tree, pro.outcome, [], None)
    else
      var s := ReadState(pro.tree, home);
      if s.year.None? then JobResult(s.tree, Pass, [], None)
      else
        var y := s.year.value;
        var r := ResumeYear(y, d.bound, k);
        JobResult(Persisted(s.tree, home, y, r), if r == LoopExit(y, d.bound) then Pass else Fail(TimeLimit),
                  Take(LoopEvents(y, d.bound), k), Some(r))
  }

  /** goNEMOproduction.sh with a time limit of k loop steps. */
  function ProductionRun(t: Tree, w: Path, home: Path, d: Driver, tools: Tools, k: nat): JobResult
    requires d.Production?
  {
    var pro := ExecAll(t, PrologueOps(w, d.prologue, tools));
    if pro.outcome.Fail? then JobResult(pro.tree, pro.outcome, [], None)
    else PhaseOne(ReadState(pro.tree, home), w, home, d, k)
  }

  /** From the year read: without one the loops are skipped, the transition
      still runs and the final check fails. */
  function PhaseOne(s: StateRead, w: Path, home: Path, d: Driver, k: nat): JobResult
    requires d.Production?
  {
    if s.year.None? then
      var tr := ExecAll(s.tree, TransitionOps(w, home));
      if tr.outcome.Fail? then JobResult(tr.tree, tr.outcome, [], None)
      else JobResult(tr.tree, Fail(BadState(StateFile(home))), [RunIncomplete], None)
    else
      var y := s.year.value;
      var r1 := ResumeYear(y, d.spinBound, k);
      var l1 := Take(LoopEvents(y, d.spinBound), k);
      var t1 := Persisted(s.tree, home, y, r1);
      if r1 != LoopExit(y, d.spinBound) then JobResult(t1, Fail(TimeLimit), l1, Some(r1))
      else PhaseTwo(ExecAll(t1, TransitionOps(w, home)), home, d, r1, k - |l1|, l1)
  }

  /** After the transition: the second loop from year r1 and the final check. */
  function PhaseTwo(tr: Run, home: Path, d: Driver, r1: nat, k: nat, l1: seq<Event>): JobResult
    requires d.Production?
  {
    if tr.outcome.Fail? then JobResult(tr.tree, tr.outcome, l1, Some(r1))
    else
      var r2 := ResumeYear(r1, d.bound, k);
      var l2 := l1 + Take(LoopEvents(r1, d.bound), k);
      var t2 := Persisted(tr.tree, home, r1, r2);
      if r2 != LoopExit(r1, d.bound) then JobResult(t2, Fail(TimeLimit), l2, Some(r2))
      else if r2 == d.finalYear then JobResult(t2, Pass, l2 + [PostProc], Some(r2))
      else JobResult(t2, Fail(WrongYear(r2)), l2 + [RunIncomplete], Some(r2))
  }

  /** goNEMOquick.sh: the prologue, then one run of the model. */
  method RunQuick(fs: FileSystem, job: Job, w: Path, d: Driver, tools: Tools) returns (o: Outcome)
    requires fs.Valid() && d.Quick? && job.log == []
    modifies fs, job
    ensures Run(fs.tree, o) == ExecAll(old(fs.tree), PrologueOps(w, d.prologue, tools))
    ensures job.log == if o.Pass? then [QuickPre, QuickNemo, QuickPost] else []
    ensures fs.Valid()
  {
    o := RunPrologue(fs, w, d.prologue, tools);
    if o.Fail? { return; }
    job.Record(QuickPre);
    job.Record(QuickNemo);
    job.Record(QuickPost);
  }

  method RunLong(fs: FileSystem, job: Job, w: Path, home: Path, d: Driver, tools: Tools)
    returns (o: Outcome, year: Option<nat>)
    requires fs.Valid() && d.Long? && job.log == []
    modifies fs, job
    ensures LongRun(old(fs.tree), w, home, d, tools, old(job.left)) == JobResult(fs.tree, o, job.log, year)
    ensures fs.Valid()
  {
    year := None;
    o := RunPrologue(fs, w, d.prologue, tools);
    if o.Fail? { return; }
    year := ReadStateFile(fs, home);
    if year.None? { return; }
    var r, done := YearLoop(fs, job, home, year.value, d.bound);
    year := Some(r);
    o := if done then Pass else Fail(TimeLimit);
  }

  method RunProduction(fs: FileSystem, job: Job, w: Path, home: Path, d: Driver, tools: Tools)
    returns (o: Outcome, year: Option<nat>)
    requires fs.Valid() && d.Production? && job.log == []
    modifies fs, job
    ensures ProductionRun(old(fs.tree), w, home, d, tools, old(job.left)) == JobResult(fs.tree, o, job.log, year)
    ensures fs.Valid()
  {
    year := None;
    o := RunPrologue(fs, w, d.prologue, tools);
    if o.Fail? { return; }
    year := ReadStateFile(fs, home);
    o, year := RunPhases(fs, job, w, home, d, year);
  }

  /** Both phases, from the year read. */
  method RunPhases(fs: FileSystem, job: Job, w: Path, home: Path, d: Driver, year0: Option<nat>)
    returns (o: Outcome, year: Option<nat>)
    requires fs.Valid() && d.Production? && job.log == []
    modifies fs, job
    ensures PhaseOne(StateRead(old(fs.tree), year0), w, home, d, old(job.left)) == JobResult(fs.tree, o, job.log, year)
    ensures fs.Valid()
  {
    year := None;
    if year0.None? {
      o := RunWithoutYear(fs, job, w, home);
      return;
    }
    ghost var k, t0 := job.left, fs.tree;
    var y := year0.value;
    var r1, done1 := YearLoop(fs, job, home, y, d.spinBound);
    PhaseOneSome(t0, y, w, home, d, k, job.log, job.left, r1, fs.tree);
    year := Some(r1);
    if !done1 {
      o := Fail(TimeLimit);
      return;
    }
    o, year := FinishProduction(fs, job, w, home, d, r1);
  }

  /** Phase 1 from the year read, in terms of what the first loop left. */
  lemma PhaseOneSome(t: Tree, y: nat, w: Path, home: Path, d: Driver, k: nat,
                     log: seq<Event>, left: nat, r1: nat, t1: Tree)
    requires d.Production?
    requires log == [] + Take(LoopEvents(y, d.spinBound), k)
    requires left == k - Min(k, |LoopEvents(y, d.spinBound)|)
    requires r1 == ResumeYear(y, d.spinBound, k) && t1 == Persisted(t, home, y, r1)
    ensures PhaseOne(StateRead(t, Some(y)), w, home, d, k) ==
              if r1 != LoopExit(y, d.spinBound) then JobResult(t1, Fail(TimeLimit), log, Some(r1))
              else PhaseTwo(ExecAll(t1, TransitionOps(w, home)), home, d, r1, left, log)
  {
    assert log == Take(LoopEvents(y, d.spinBound), k);
  }

  /** No year was read: the transition, then the failed final check. */
  method RunWithoutYear(fs: FileSystem, job: Job, w: Path, home: Path) returns (o: Outcome)
    requires fs.Valid() && job.log == []
    modifies fs, job
    ensures var tr := ExecAll(old(fs.tree), TransitionOps(w, home));
      fs.tree == tr.tree &&
      if tr.outcome.Fail? then o == tr.outcome && job.log == []
      else o == Fail(BadState(StateFile(home))) && job.log == [RunIncomplete]
    ensures fs.Valid()
  {
    o := RunTransition(fs, w, home);
    if o.Fail? { return; }
    job.Record(RunIncomplete);
    o := Fail(BadState(StateFile(home)));
  }

  /** The transition, phase 2 and the final check. */
  method FinishProduction(fs: FileSystem, job: Job, w: Path, home: Path, d: Driver, r1: nat)
    returns (o: Outcome, year: Option<nat>)
    requires fs.Valid() && d.Production?
    modifies fs, job
    ensures PhaseTwo(ExecAll(old(fs.tree), TransitionOps(w, home)), home, d, r1, old(job.left), old(job.log))
              == JobResult(fs.tree, o, job.log, year)
    ensures fs.Valid()
  {
    year := Some(r1);
    o := RunTransition(fs, w, home);
    if o.Fail? { return; }
    var r2, done2 := YearLoop(fs, job, home, r1, d.bound);
    year := Some(r2);
    if !done2 {
      o := Fail(TimeLimit);
    } else if r2 == d.finalYear {
      job.Record(PostProc);
      o := Pass;
    } else {
      job.Record(RunIncomplete);
      o := Fail(WrongYear(r2));
    }
  }

  // ---------------------------------------------------------------------
  // What the prologue leaves.

  lemma BuiltParent(w: Path)
    ensures Parent(Built(w)) == w + ["domaincfg"] && Parent(w + ["domaincfg"]) == w
    ensures Parent(DomainFile(w)) == w && Parent(HackedFile(w)) == w
  {
    assert Built(w)[..|Built(w)| - 1] == w + ["domaincfg"];
  }

  /** Two paths whose last names differ are different paths. */
  lemma LastDiffers(p: Path, q: Path)
    requires p != [] && q != [] && p[|p| - 1] != q[|q| - 1]
    ensures p != q
  {
  }

  /** A tool writing its output where nothing is yet. */
  lemma ProduceFresh(t: Tree, p: Path, c: Content)
    requires p !in t && p != [] && DirAt(t, Parent(p))
    ensures Exec(t, Produce(p, Some(c))) == Run(t[p := File(c)], Pass)
  {
  }

  lemma RequirePresent(t: Tree, p: Path, f: Failure)
    requires p in t && t[p].File?
    ensures Exec(t, RequireFile(p, f)) == Run(t, Pass)
  {
  }

  lemma RemoveEntry(t: Tree, p: Path)
    requires p in t && !t[p].Dir?
    ensures Exec(t, Unchecked(RemoveOp(p))) == Run(t - {p}, Pass)
  {
  }

  /** The drivers' `mv`, whose status is ignored: `Staging.MoveInto` inside
      the unchecked step. */
  lemma MoveEntry(t: Tree, src: Path, dst: Path)
    requires src in t && !t[src].Dir? && !DirAt(t, dst) && dst != [] && DirAt(t, Parent(dst))
    ensures Exec(t, Unchecked(MoveOp(src, dst))) == Run((t - {src})[dst := t[src]], Pass)
  {
    Staging.MoveInto(t, src, dst);
  }

  /** make_domain_cfg.exe's output is moved up to become the run
      directory's domain_cfg.nc. */
  lemma BuildInstalls(t: Tree, w: Path, c: Content, tools: Tools)
    requires tools.domain == Some(c)
    requires WellFormed(t) && DirAt(t, w + ["domaincfg"]) && Built(w) !in t && !DirAt(t, DomainFile(w))
    ensures ExecAll(t, BuildOps(w, tools)) == Run((t - {Built(w)})[DomainFile(w) := File(c)], Pass)
  {
    var ops := BuildOps(w, tools);
    var b, out := Built(w), DomainFile(w);
    BuiltParent(w);
    assert DirAt(t, w);
    assert b != out by { assert |b| != |out|; }
    var t1 := t[b := File(c)];
    ProduceFresh(t, b, c);
    ExecPass(t, ops, t1);
    RequirePresent(t1, b, HookFailed(b));
    ExecPass(t1, ops[1..], t1);
    MoveEntry(t1, b, out);
    assert ops[1..][1..] == [ops[2]];
    ExecOne(t1, ops[2]);
    assert (t1 - {b})[out := File(c)] == (t - {b})[out := File(c)];
  }

  /** Without make_domain_cfg.exe's output the job stops, changing nothing. */
  lemma BuildMissing(t: Tree, w: Path, tools: Tools)
    requires tools.domain.None? && !IsFile(t, Built(w))
    ensures ExecAll(t, BuildOps(w, tools)) == Run(t, Fail(HookFailed(Built(w))))
  {
    var ops := BuildOps(w, tools);
    ExecPass(t, ops, t);
    ExecFail(t, ops[1..]);
  }

  /** The hook's output replaces domain_cfg.nc. */
  lemma HookInstalls(t: Tree, w: Path, h: Content, tools: Tools)
    requires tools.hacked == Some(h)
    requires DirAt(t, w) && HackedFile(w) !in t && DomainFile(w) in t && t[DomainFile(w)].File?
    ensures ExecAll(t, HookOps(w, tools)) == Run((t - {HackedFile(w)})[DomainFile(w) := File(h)], Pass)
  {
    var ops := HookOps(w, tools);
    var hk, out := HackedFile(w), DomainFile(w);
    BuiltParent(w);
    LastDiffers(hk, out);
    var t1 := t[hk := File(h)];
    ProduceFresh(t, hk, h);
    ExecPass(t, ops, t1);
    RequirePresent(t1, hk, HookFailed(hk));
    ExecPass(t1, ops[1..], t1);
    var t2 := t1 - {out};
    RemoveEntry(t1, out);
    assert ops[1..][1..] == ReplaceOps(w);
    ExecPass(t1, ReplaceOps(w), t2);
    MoveEntry(t2, hk, out);
    assert ReplaceOps(w)[1..] == [ReplaceOps(w)[1]];
    ExecOne(t2, ReplaceOps(w)[1]);
    HookTree(t, hk, out, h);
  }

  lemma HookTree(t: Tree, hk: Path, out: Path, h: Content)
    requires hk != out
    ensures ((t[hk := File(h)] - {out}) - {hk})[out := File(h)] == (t - {hk})[out := File(h)]
  {
  }

  /** Without the hook's output the job stops. */
  lemma HookMissing(t: Tree, w: Path, tools: Tools)
    requires tools.hacked.None? && !IsFile(t, HackedFile(w))
    ensures ExecAll(t, HookOps(w, tools)) == Run(t, Fail(HookFailed(HackedFile(w))))
  {
    var ops := HookOps(w, tools);
    ExecPass(t, ops, t);
    ExecFail(t, ops[1..]);
  }

  /** With both programs writing their output, a hooked prologue leaves the
      hook's output as domain_cfg.nc and neither intermediate file. */
  lemma HookedPrologue(t: Tree, w: Path, hook: Path, c: Content, h: Content, tools: Tools)
    requires tools == Tools(Some(c), Some(h))
    requires WellFormed(t) && DirAt(t, w + ["domaincfg"]) && Built(w) !in t && HackedFile(w) !in t
    requires !DirAt(t, DomainFile(w))
    ensures var r := ExecAll(t, PrologueOps(w, MakeDomain(Some(hook)), tools));
      && r.outcome.Pass?
      && At(r.tree, DomainFile(w)) == Some(File(h))
      && Built(w) !in r.tree && HackedFile(w) !in r.tree
  {
    ExecAllAppend(t, BuildOps(w, tools), HookOps(w, tools));
    BuildInstalls(t, w, c, tools);
    var t1 := (t - {Built(w)})[DomainFile(w) := File(c)];
    BuiltParent(w);
    assert DirAt(t, w);
    LastDiffers(HackedFile(w), DomainFile(w));
    HookInstalls(t1, w, h, tools);
  }

  // ---------------------------------------------------------------------
  // The transition.

  function NamelistCfg(w: Path): Path { w + ["namelist_cfg"] }
  function NamelistMeh(w: Path): Path { w + ["namelist_meh"] }
  function NamelistRef(w: Path): Path { w + ["namelist_ref"] }

  /** The run directory as the transition expects it: namelist_cfg a
      namelist, no namelist_meh yet, namelist_ref not a directory. */
  ghost predicate TransitionReady(u: Tree, w: Path, doc: Namelist.Doc) {
    && DirAt(u, w)
    && At(u, NamelistCfg(w)) == Some(File(Nml(doc)))
    && NamelistMeh(w) !in u
    && !DirAt(u, NamelistRef(w))
  }

  /** Moving one output definition over another keeps the namelists as
      they were. */
  lemma SwapKeepsReady(u: Tree, w: Path, doc: Namelist.Doc, a: string, b: string)
    requires TransitionReady(u, w, doc)
    requires a != "namelist_cfg" && a != "namelist_meh" && a != "namelist_ref"
    requires b != "namelist_cfg" && b != "namelist_meh" && b != "namelist_ref"
    ensures TransitionReady(Exec(u, Unchecked(MoveOp(w + [a], w + [b]))).tree, w, doc)
  {
    var src, dst := w + [a], w + [b];
    LastDiffers(src, NamelistCfg(w));
    LastDiffers(src, NamelistMeh(w));
    LastDiffers(src, NamelistRef(w));
    LastDiffers(dst, NamelistCfg(w));
    LastDiffers(dst, NamelistMeh(w));
    LastDiffers(dst, NamelistRef(w));
    assert src != w && dst != w by { assert |src| != |w| && |dst| != |w|; }
    MoveElsewhere(u, src, dst, w);
    MoveElsewhere(u, src, dst, NamelistCfg(w));
    MoveElsewhere(u, src, dst, NamelistMeh(w));
    MoveElsewhere(u, src, dst, NamelistRef(w));
  }

  /** A move changes nothing at a path that is neither of its ends. */
  lemma MoveElsewhere(u: Tree, src: Path, dst: Path, p: Path)
    requires p != src && p != dst
    ensures At(Exec(u, Unchecked(MoveOp(src, dst))).tree, p) == At(u, p)
  {
    assert Exec(u, MoveOp(src, dst)) == Move(u, src, dst);
  }

  /** In the run directory the transition goes through: namelist_ref ends
      as namelist_cfg with the momentum trend diagnostics switched on, and
      namelist_meh is gone again. */
  lemma TransitionInRunDir(u: Tree, w: Path, doc: Namelist.Doc)
    requires TransitionReady(u, w, doc)
    ensures var r := ExecAll(u, TransitionOps(w, w));
      && r.outcome.Pass?
      && At(r.tree, NamelistRef(w)) == Some(File(Nml(Namelist.Apply(doc, Namelist.DynTrdPatch()))))
      && NamelistMeh(w) !in r.tree
  {
    var ops := TransitionOps(w, w);
    SwapKeepsReady(u, w, doc, "file_def_nemo-oce_asfmo.xml", "file_def_nemo-oce.xml");
    var u1 := Exec(u, ops[0]).tree;
    ExecPass(u, ops, u1);
    SwapKeepsReady(u1, w, doc, "field_def_nemo-oce_asfmo.xml", "field_def_nemo-oce.xml");
    var u2 := Exec(u1, ops[1]).tree;
    ExecPass(u1, ops[1..], u2);
    assert ops[1..][1..] == DiagnosticsOps(w, w);
    TransitionTail(u2, w, doc);
  }

  lemma TransitionTail(u: Tree, w: Path, doc: Namelist.Doc)
    requires TransitionReady(u, w, doc)
    ensures var r := ExecAll(u, DiagnosticsOps(w, w));
      && r.outcome.Pass?
      && At(r.tree, NamelistRef(w)) == Some(File(Nml(Namelist.Apply(doc, Namelist.DynTrdPatch()))))
      && NamelistMeh(w) !in r.tree
  {
    var ops := DiagnosticsOps(w, w);
    var cfg, meh, ref := NamelistCfg(w), NamelistMeh(w), NamelistRef(w);
    var e := File(Nml(Namelist.Apply(doc, Namelist.DynTrdPatch())));
    LastDiffers(meh, ref);
    LastDiffers(meh, cfg);
    var u3 := u[meh := e];
    Staging.PatchInto(u, cfg, Namelist.DynTrdPatch(), meh, doc);
    assert ops[0] == Unchecked(PatchOp(cfg, Namelist.DynTrdPatch(), meh));
    ExecPass(u, ops, u3);
    RequirePresent(u3, meh, HookFailed(meh));
    assert ops[1..][0] == RequireFile(meh, HookFailed(meh));
    ExecPass(u3, ops[1..], u3);
    MoveEntry(u3, meh, ref);
    assert ops[1..][1..] == [ops[2]];
    ExecOne(u3, ops[2]);
  }

  /** Outside the run directory, where `cd $cwd` lands when `$cwd` is not
      set, the check for namelist_meh looks in the wrong directory: the
      patch writes it into the run directory and the job stops. */
  lemma TransitionOutsideRunDir(u: Tree, w: Path, home: Path)
    requires home != w && home + ["namelist_meh"] !in u && NamelistMeh(w) !in u
    ensures ExecAll(u, TransitionOps(w, home)).outcome == Fail(HookFailed(home + ["namelist_meh"]))
  {
    var ops := TransitionOps(w, home);
    var hm := home + ["namelist_meh"];
    assert hm != NamelistMeh(w) by {
      assert hm[..|home|] == home && NamelistMeh(w)[..|w|] == w;
    }
    var d1, d2 := home + ["file_def_nemo-oce.xml"], home + ["field_def_nemo-oce.xml"];
    LastDiffers(d1, hm);
    LastDiffers(d1, NamelistMeh(w));
    LastDiffers(d2, hm);
    LastDiffers(d2, NamelistMeh(w));
    FreeAfterMove(u, hm, NamelistMeh(w), home + ["file_def_nemo-oce_asfmo.xml"], d1);
    var u1 := Exec(u, ops[0]).tree;
    ExecPass(u, ops, u1);
    FreeAfterMove(u1, hm, NamelistMeh(w), home + ["field_def_nemo-oce_asfmo.xml"], d2);
    var u2 := Exec(u1, ops[1]).tree;
    assert ops[1..][1..] == ops[2..];
    assert ops[1..][1..] == DiagnosticsOps(w, home);
    ExecPass(u1, ops[1..], u2);
    MehStillMissing(u2, w, home);
  }

  /** A move onto a name that is neither of two paths leaves both absent. */
  lemma FreeAfterMove(u: Tree, p: Path, q: Path, src: Path, dst: Path)
    requires p !in u && q !in u && dst != p && dst != q
    ensures var v := Exec(u, Unchecked(MoveOp(src, dst))).tree; p !in v && q !in v
  {
  }

  /** The patch writes namelist_meh into the run directory, so the check
      in `home` fails. */
  lemma MehStillMissing(u: Tree, w: Path, home: Path)
    requires home + ["namelist_meh"] !in u && NamelistMeh(w) !in u && home + ["namelist_meh"] != NamelistMeh(w)
    ensures ExecAll(u, DiagnosticsOps(w, home)).outcome == Fail(HookFailed(home + ["namelist_meh"]))
  {
    var ops := DiagnosticsOps(w, home);
    var u3 := Exec(u, ops[0]).tree;
    assert ops[0] == Unchecked(PatchOp(NamelistCfg(w), Namelist.DynTrdPatch(), NamelistMeh(w)));
    PatchAddsOnly(u, NamelistCfg(w), Namelist.DynTrdPatch(), NamelistMeh(w));
    ExecPass(u, ops, u3);
    ExecFail(u3, ops[1..]);
  }

  /** A patch onto a new name adds that name and no other. */
  lemma PatchAddsOnly(u: Tree, src: Path, p: Namelist.Patch, out: Path)
    requires out !in u
    ensures Exec(u, Unchecked(PatchOp(src, p, out))).tree.Keys <= u.Keys + {out}
  {
    var r := PatchFile(u, src, p, out);
    assert Exec(u, PatchOp(src, p, out)) == r;
    assert Resolve(u, out) == out;
  }

  // ---------------------------------------------------------------------
  // What a job achieves.

  /** A long job that read a year leaves the state file holding the year
      it stopped in, whether it finished or was killed: a resubmitted job
      carries on from there. */
  lemma LongResumes(t: Tree, w: Path, home: Path, d: Driver, tools: Tools, k: nat)
    requires d.Long? && WellFormed(t)
    ensures var j := LongRun(t, w, home, d, tools, k);
      j.year.Some? ==> ReadState(j.tree, home) == StateRead(j.tree, j.year)
  {
    var pro := ExecAll(t, PrologueOps(w, d.prologue, tools));
    if pro.outcome.Pass? {
      var s := ReadState(pro.tree, home);
      if s.year.Some? {
        ReadStateSettles(pro.tree, home);
        PersistedReadsBack(s.tree, home, s.year.value, ResumeYear(s.year.value, d.bound, k));
      }
    }
  }

  /** The same for a production job killed in its first phase. */
  lemma ProductionResumes(t: Tree, w: Path, home: Path, d: Driver, tools: Tools, k: nat)
    requires d.Production? && WellFormed(t)
    ensures var j := ProductionRun(t, w, home, d, tools, k);
      var s := StartYear(t, w, home, d.prologue, tools);
      j.outcome == Fail(TimeLimit) && s.Some? && j.year.value < LoopExit(s.value, d.spinBound)
      ==> ReadState(j.tree, home) == StateRead(j.tree, j.year)
  {
    var pro := ExecAll(t, PrologueOps(w, d.prologue, tools));
    if pro.outcome.Pass? {
      var st := ReadState(pro.tree, home);
      if st.year.Some? {
        ReadStateSettles(pro.tree, home);
        PhaseOneResumes(st, w, home, d, k);
      }
    }
  }

  lemma PhaseOneResumes(st: StateRead, w: Path, home: Path, d: Driver, k: nat)
    requires d.Production? && st.year.Some? && WellFormed(st.tree)
    requires IsFile(st.tree, StateFile(home)) && StateYear(ContentOf(st.tree, StateFile(home))) == st.year
    ensures var j := PhaseOne(st, w, home, d, k);
      j.outcome == Fail(TimeLimit) && j.year.value < LoopExit(st.year.value, d.spinBound)
      ==> ReadState(j.tree, home) == StateRead(j.tree, j.year)
  {
    var y := st.year.value;
    var r1 := ResumeYear(y, d.spinBound, k);
    if r1 != LoopExit(y, d.spinBound) {
      PersistedReadsBack(st.tree, home, y, r1);
    }
  }

  /** The state file as the loops leave it: a plain file, not a link,
      holding the line for year y. */
  ghost predicate StateHeld(t: Tree, home: Path, y: nat) {
    StateFile(home) in t && t[StateFile(home)].File? && StateYear(t[StateFile(home)].content) == Some(y)
  }

  /** Writing the year a loop ended in keeps the state file plain and
      changes nothing else. */
  lemma PersistedHeld(t: Tree, home: Path, y: nat, r: nat)
    requires WellFormed(t) && StateHeld(t, home, y)
    ensures var u := Persisted(t, home, y, r);
      StateHeld(u, home, r) && forall p :: p != StateFile(home) ==> At(u, p) == At(t, p)
  {
    if r != y {
      OverwriteFile(t, StateFile(home), StateContent(r));
      YearLineRoundTrip(r, "");
    }
  }

  /** The transition's steps change nothing at a path whose last name is
      none of the names they move, write or check, as long as namelist_meh
      is not a link (the patch writes through one). */
  lemma TransitionKeeps(u: Tree, w: Path, home: Path, p: Path)
    requires p != [] && p[|p| - 1] != "file_def_nemo-oce_asfmo.xml" && p[|p| - 1] != "file_def_nemo-oce.xml"
    requires p[|p| - 1] != "field_def_nemo-oce_asfmo.xml" && p[|p| - 1] != "field_def_nemo-oce.xml"
    requires p[|p| - 1] != "namelist_meh" && p[|p| - 1] != "namelist_ref"
    requires NamelistMeh(w) !in u || !u[NamelistMeh(w)].Link?
    ensures At(ExecAll(u, TransitionOps(w, home)).tree, p) == At(u, p)
  {
    var ops := TransitionOps(w, home);
    var meh := NamelistMeh(w);
    var a0, b0 := home + ["file_def_nemo-oce_asfmo.xml"], home + ["file_def_nemo-oce.xml"];
    var a1, b1 := home + ["field_def_nemo-oce_asfmo.xml"], home + ["field_def_nemo-oce.xml"];
    LastDiffers(p, a0);
    LastDiffers(p, b0);
    LastDiffers(p, a1);
    LastDiffers(p, b1);
    LastDiffers(meh, a0);
    LastDiffers(meh, b0);
    LastDiffers(meh, a1);
    LastDiffers(meh, b1);
    MoveElsewhere(u, a0, b0, p);
    MoveElsewhere(u, a0, b0, meh);
    var u1 := Exec(u, ops[0]).tree;
    ExecPass(u, ops, u1);
    MoveElsewhere(u1, a1, b1, p);
    MoveElsewhere(u1, a1, b1, meh);
    var u2 := Exec(u1, ops[1]).tree;
    ExecPass(u1, ops[1..], u2);
    assert ops[1..][1..] == DiagnosticsOps(w, home);
    LastDiffers(p, meh);
    LastDiffers(p, NamelistRef(w));
    DiagnosticsKeep(u2, w, home, p);
  }

  lemma DiagnosticsKeep(u: Tree, w: Path, home: Path, p: Path)
    requires p != NamelistMeh(w) && p != NamelistRef(w)
    requires NamelistMeh(w) !in u || !u[NamelistMeh(w)].Link?
    ensures At(ExecAll(u, DiagnosticsOps(w, home)).tree, p) == At(u, p)
  {
    var ops := DiagnosticsOps(w, home);
    var meh, check := NamelistMeh(w), home + ["namelist_meh"];
    assert ops[0] == Unchecked(PatchOp(NamelistCfg(w), Namelist.DynTrdPatch(), meh));
    assert Resolve(u, meh) == meh;
    assert Exec(u, PatchOp(NamelistCfg(w), Namelist.DynTrdPatch(), meh))
             == PatchFile(u, NamelistCfg(w), Namelist.DynTrdPatch(), meh);
    var u3 := Exec(u, ops[0]).tree;
    assert At(u3, p) == At(u, p);
    ExecPass(u, ops, u3);
    assert ops[1..][0] == RequireFile(check, HookFailed(check));
    if IsFile(u3, check) {
      ExecPass(u3, ops[1..], u3);
      MoveElsewhere(u3, meh, NamelistRef(w), p);
      assert ops[1..][1..] == [ops[2]];
      ExecOne(u3, ops[2]);
    } else {
      ExecFail(u3, ops[1..]);
    }
  }

  /** However a production job that read a year ends (killed in either
      phase, stopped by the transition's check, or through its final
      check) the state file holds the year `$year` ends with, so a
      resubmitted job reads that year. This holds while the state file and
      namelist_meh are not links. */
  lemma PhaseOneSettles(st: StateRead, w: Path, home: Path, d: Driver, k: nat)
    requires d.Production? && st.year.Some? && WellFormed(st.tree)
    requires StateHeld(st.tree, home, st.year.value)
    requires NamelistMeh(w) !in st.tree || !st.tree[NamelistMeh(w)].Link?
    ensures var j := PhaseOne(st, w, home, d, k);
      j.year.Some? && ReadState(j.tree, home) == StateRead(j.tree, j.year)
  {
    var y := st.year.value;
    var r1 := ResumeYear(y, d.spinBound, k);
    var l1 := Take(LoopEvents(y, d.spinBound), k);
    var t1 := Persisted(st.tree, home, y, r1);
    PhaseOneHeld(st.tree, w, home, y, r1);
    var j := PhaseOne(st, w, home, d, k);
    if r1 != LoopExit(y, d.spinBound) {
      assert j == JobResult(t1, Fail(TimeLimit), l1, Some(r1));
    } else {
      var tr := ExecAll(t1, TransitionOps(w, home));
      PhaseTwoSettles(tr, home, d, r1, k - |l1|, l1);
      assert j == PhaseTwo(tr, home, d, r1, k - |l1|, l1);
    }
  }

  /** What phase 1 leaves: a plain state file holding the year it ended
      in, before and after the transition. */
  lemma PhaseOneHeld(t: Tree, w: Path, home: Path, y: nat, r1: nat)
    requires WellFormed(t) && StateHeld(t, home, y)
    requires NamelistMeh(w) !in t || !t[NamelistMeh(w)].Link?
    ensures var t1 := Persisted(t, home, y, r1);
      && ReadState(t1, home) == StateRead(t1, Some(r1))
      && WellFormed(ExecAll(t1, TransitionOps(w, home)).tree)
      && StateHeld(ExecAll(t1, TransitionOps(w, home)).tree, home, r1)
  {
    var s, meh := StateFile(home), NamelistMeh(w);
    var t1 := Persisted(t, home, y, r1);
    PersistedHeld(t, home, y, r1);
    LastDiffers(meh, s);
    assert At(t1, meh) == At(t, meh);
    HeldReads(t1, home, r1);
    if r1 != y {
      OverwriteFile(t, s, StateContent(r1));
    }
    TransitionKeeps(t1, w, home, s);
  }

  /** Phase 2 from a tree whose state file holds the year phase 1 ended in. */
  lemma PhaseTwoSettles(tr: Run, home: Path, d: Driver, r1: nat, k: nat, l1: seq<Event>)
    requires d.Production? && WellFormed(tr.tree) && StateHeld(tr.tree, home, r1)
    ensures var j := PhaseTwo(tr, home, d, r1, k, l1);
      j.year.Some? && ReadState(j.tree, home) == StateRead(j.tree, j.year)
  {
    HeldReads(tr.tree, home, r1);
    var r2 := ResumeYear(r1, d.bound, k);
    PersistedHeld(tr.tree, home, r1, r2);
    HeldReads(Persisted(tr.tree, home, r1, r2), home, r2);
  }

  /** A plain state file reads back as the year it holds. */
  lemma HeldReads(t: Tree, home: Path, y: nat)
    requires StateHeld(t, home, y)
    ensures ReadState(t, home) == StateRead(t, Some(y))
  {
    assert Resolve(t, StateFile(home)) == StateFile(home);
  }

  /** Neither ending of the production driver occurs inside a year loop. */
  lemma {:induction false} EndingsOutsideLoop(y: nat, bound: int, k: nat)
    ensures PostProc !in Take(LoopEvents(y, bound), k)
    ensures RunIncomplete !in Take(LoopEvents(y, bound), k)
  {
    var l := Take(LoopEvents(y, bound), k);
    forall i | 0 <= i < |l| ensures l[i] != PostProc && l[i] != RunIncomplete {
      LoopEventAt(y, bound, i);
    }
  }

  /** The steps of the prologue and of the transition: tools, unchecked
      commands and checks for a tool's output. */
  predicate ToolSteps(ops: seq<Op>) {
    forall i :: 0 <= i < |ops| ==>
      ops[i].Produce? || ops[i].Unchecked? || (ops[i].RequireFile? && ops[i].failure.HookFailed?)
  }

  /** Such steps fail only because a tool's output is missing. */
  lemma {:induction false} ToolStepsFail(t: Tree, ops: seq<Op>)
    requires ToolSteps(ops)
    ensures ExecAll(t, ops).outcome.Fail? ==> ExecAll(t, ops).outcome.error.HookFailed?
    decreases |ops|
  {
    if ops != [] {
      var r := Exec(t, ops[0]);
      if r.outcome.Pass? {
        assert forall i :: 0 <= i < |ops[1..]| ==> ops[1..][i] == ops[i + 1];
        ToolStepsFail(r.tree, ops[1..]);
      }
    }
  }

  lemma PrologueFails(t: Tree, w: Path, p: Prologue, tools: Tools)
    ensures var r := ExecAll(t, PrologueOps(w, p, tools)); r.outcome.Fail? ==> r.outcome.error.HookFailed?
  {
    ToolStepsFail(t, PrologueOps(w, p, tools));
  }

  lemma TransitionFails(t: Tree, w: Path, home: Path)
    ensures var r := ExecAll(t, TransitionOps(w, home)); r.outcome.Fail? ==> r.outcome.error.HookFailed?
  {
    ToolStepsFail(t, TransitionOps(w, home));
  }

  /** The generated long driver. It is killed exactly when it read a year
      and the time was not enough for every remaining year; when it ends
      normally after reading a year it has run each year from that year to
      YEAR_MAX once and leaves year max(start, YEAR_MAX+1); when it is
      killed it stops in a year up to YEAR_MAX and has run no later one. */
  lemma LongOutcome(t: Tree, w: Path, home: Path, ym: nat, sel: DomainSelector, tools: Tools, k: nat)
    ensures var d := Generate(ym, sel).long;
      var j := LongRun(t, w, home, d, tools, k);
      var s := StartYear(t, w, home, d.prologue, tools);
      && (j.outcome == Fail(TimeLimit) <==> s.Some? && k < 5 * (Max(s.value, ym + 1) - s.value))
      && (j.outcome.Pass? && s.Some? ==>
            && j.year == Some(Max(s.value, ym + 1))
            && forall z: nat :: Nemo(z) in j.log <==> s.value <= z <= ym)
      && (j.outcome == Fail(TimeLimit) ==>
            && j.year.Some? && s.value <= j.year.value <= ym
            && forall z: nat :: Nemo(z) in j.log ==> s.value <= z <= j.year.value)
  {
    var d := Generate(ym, sel).long;
    PrologueFails(t, w, d.prologue, tools);
    var pro := ExecAll(t, PrologueOps(w, d.prologue, tools));
    if pro.outcome.Pass? {
      var st := ReadState(pro.tree, home);
      if st.year.Some? {
        LongFromYear(st.year.value, ym, sel, k);
      }
    }
  }

  lemma LongFromYear(y: nat, ym: nat, sel: DomainSelector, k: nat)
    ensures var d := Generate(ym, sel).long;
      var r := ResumeYear(y, d.bound, k);
      var l := Take(LoopEvents(y, d.bound), k);
      && (r != LoopExit(y, d.bound) <==> k < 5 * (Max(y, ym + 1) - y))
      && (r == LoopExit(y, d.bound) ==> r == Max(y, ym + 1) && forall z: nat :: Nemo(z) in l <==> y <= z <= ym)
      && (r != LoopExit(y, d.bound) ==> y <= r <= ym && forall z: nat :: Nemo(z) in l ==> y <= z <= r)
  {
    var d := Generate(ym, sel).long;
    ResumeTrace(y, d.bound, k);
    LoopLength(y, d.bound);
    forall z: nat ensures Nemo(z) in LoopEvents(y, d.bound) <==> y <= z < d.bound {
      NemoInLoop(y, d.bound, z);
    }
    forall z: nat | Nemo(z) in Take(LoopEvents(y, d.bound), k) ensures y <= z <= ResumeYear(y, d.bound, k) {
      ResumeNoRunAhead(y, d.bound, k, z);
    }
  }

  /** What the generated production driver promises for a job that starts
      from year `s` (None: no year read): it ends normally exactly when its
      log holds the post-processing, and then it started no later than
      YEAR_MAX+1, has run each year from its start to YEAR_MAX once and
      ends in year YEAR_MAX+1. The final check fails only for a start year
      beyond YEAR_MAX+1, which it reports. */
  ghost predicate ProductionPromise(j: JobResult, s: Option<nat>, ym: nat) {
    && (PostProc in j.log <==> j.outcome.Pass?)
    && (j.outcome.Pass? ==>
          && s.Some? && s.value <= ym + 1 && j.year == Some(ym + 1)
          && |j.log| > 0 && j.log[|j.log| - 1] == PostProc
          && forall z: nat :: Nemo(z) in j.log <==> s.value <= z <= ym)
    && (j.outcome.Fail? && j.outcome.error.WrongYear? ==>
          s.Some? && s.value > ym + 1 && j.outcome.error.year == s.value)
  }

  lemma ProductionOutcome(t: Tree, w: Path, home: Path, ym: nat, sel: DomainSelector, tools: Tools, k: nat)
    ensures var d := Generate(ym, sel).production;
      ProductionPromise(ProductionRun(t, w, home, d, tools, k), StartYear(t, w, home, d.prologue, tools), ym)
  {
    var d := Generate(ym, sel).production;
    PrologueFails(t, w, d.prologue, tools);
    var pro := ExecAll(t, PrologueOps(w, d.prologue, tools));
    if pro.outcome.Pass? {
      var st := ReadState(pro.tree, home);
      if st.year.Some? {
        ProductionFromYear(st, w, home, ym, sel, k);
      } else {
        ProductionWithoutYear(st, w, home, d, k);
      }
    }
  }

  /** Without a year the job ends in the transition's failure or in the
      failed final check. */
  lemma ProductionWithoutYear(st: StateRead, w: Path, home: Path, d: Driver, k: nat)
    requires st.year.None? && d.Production?
    ensures var j := PhaseOne(st, w, home, d, k);
      j.outcome.Fail? && j.log == (if j.outcome.error.HookFailed? then [] else [RunIncomplete])
      && (j.outcome.error.HookFailed? || j.outcome.error == BadState(StateFile(home)))
  {
    TransitionFails(st.tree, w, home);
  }

  lemma ProductionFromYear(st: StateRead, w: Path, home: Path, ym: nat, sel: DomainSelector, k: nat)
    requires st.year.Some?
    ensures ProductionPromise(PhaseOne(st, w, home, Generate(ym, sel).production, k), st.year, ym)
  {
    var d := Generate(ym, sel).production;
    var y := st.year.value;
    var r1 := ResumeYear(y, d.spinBound, k);
    var l1 := Take(LoopEvents(y, d.spinBound), k);
    EndingsOutsideLoop(y, d.spinBound, k);
    ResumeTrace(y, d.spinBound, k);
    if r1 == LoopExit(y, d.spinBound) {
      var t1 := Persisted(st.tree, home, y, r1);
      var tr := ExecAll(t1, TransitionOps(w, home));
      TransitionFails(t1, w, home);
      PhaseTwoFrom(tr, home, ym, sel, y, k - |l1|);
    }
  }

  lemma PhaseTwoFrom(tr: Run, home: Path, ym: nat, sel: DomainSelector, y: nat, k: nat)
    requires tr.outcome.Fail? ==> tr.outcome.error.HookFailed?
    ensures var d := Generate(ym, sel).production;
      ProductionPromise(PhaseTwo(tr, home, d, PhaseOneExit(d, y), k, LoopEvents(y, d.spinBound)), Some(y), ym)
  {
    var d := Generate(ym, sel).production;
    var r1 := PhaseOneExit(d, y);
    var l1 := LoopEvents(y, d.spinBound);
    EndingsOutsideLoop(y, d.spinBound, |l1|);
    assert Take(l1, |l1|) == l1;
    EndingsOutsideLoop(r1, d.bound, k);
    ResumeTrace(r1, d.bound, k);
    ProductionFinalCheck(ym, sel, y);
    var r2 := ResumeYear(r1, d.bound, k);
    if tr.outcome.Pass? && r2 == LoopExit(r1, d.bound) {
      var l2 := LoopEvents(r1, d.bound);
      forall z: nat ensures Nemo(z) in l1 + l2 <==> y <= z <= ym {
        ProductionPhases(ym, sel, y, z);
      }
      assert forall z: nat :: Nemo(z) in l1 + l2 + [PostProc] <==> Nemo(z) in l1 + l2;
    }
  }
}
