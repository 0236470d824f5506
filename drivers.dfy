/** The three batch drivers the staging writes (goNEMOquick.sh, goNEMOlong.sh,
    goNEMOproduction.sh), kept as their structure: whether the domain prologue
    is present (and with which hook), the loop bounds, the phase transition and
    the final check. The scheduler directives, module loads and echo lines are
    opaque text and are not represented.

    This module also holds the specification of the resumable year loop that
    every driver runs: the events of one uninterrupted run from a start year,
    and what is left behind when a run is preempted after any event. */
module Drivers {
  import opened Paths
  import opened Outcomes

  /** The `extdomaincfg` argument of `main` and `mkmesh`: a mode word
      ('', 'hacked', 'rogue', anything else) and a path (the hook script for
      'hacked', the external domain_cfg.nc for 'rogue'). */
  datatype DomainSelector = DomainSelector(kind: string, arg: Path)

  /** The domain prologue: absent, or run make_domain_cfg.exe in domaincfg/
      and, with a hook, post-process its output. */
  datatype Prologue = NoDomainStep | MakeDomain(hook: Option<Path>)

  datatype Driver =
    | Quick(prologue: Prologue)
    | Long(prologue: Prologue, bound: int)
    | Production(prologue: Prologue, spinBound: int, bound: int, finalYear: int)

  datatype DriverSet = DriverSet(quick: Driver, long: Driver, production: Driver)

  /** The prologue each generator emits for a domain selector. */
  function PrologueFor(sel: DomainSelector): (p: Prologue)
    ensures p.MakeDomain? <==> sel.kind == "" || sel.kind == "hacked"
    ensures p.MakeDomain? ==> (p.hook.Some? <==> sel.kind == "hacked")
    ensures p.MakeDomain? && p.hook.Some? ==> p.hook.value == sel.arg
  {
    if sel.kind == "" then MakeDomain(None)
    else if sel.kind == "hacked" then MakeDomain(Some(sel.arg))
    else NoDomainStep
  }

  /** Number of the last spin-up year plus one: `SYEARS=int(rP_YEAR_MAX)-9`. */
  const SpinUpOffset: int := 9

  /** The three generators: the quick driver runs once; the long driver loops
      while year < YEAR_MAX+1; the production driver loops while
      year < YEAR_MAX-9, switches to production output, loops while
      year < YEAR_MAX+1 and then checks year == YEAR_MAX+1. */
  function Generate(yearMax: nat, sel: DomainSelector): (ds: DriverSet)
    ensures ds.quick.Quick? && ds.long.Long? && ds.production.Production?
    ensures ds.quick.prologue == ds.long.prologue == ds.production.prologue == PrologueFor(sel)
    ensures ds.long.bound == yearMax + 1
    ensures ds.production.spinBound == yearMax - SpinUpOffset
    ensures ds.production.bound == ds.production.finalYear == yearMax + 1
  {
    var p := PrologueFor(sel);
    DriverSet(Quick(p), Long(p, yearMax + 1), Production(p, yearMax - SpinUpOffset, yearMax + 1, yearMax + 1))
  }

  /** The programs a driver runs, in order: the quick driver's three, each
      year's preNEMO.py, nemo.exe, postNEMO.py, `wait` and the new year
      written to the state file, and the production driver's two endings
      (the post-processing wrappers, or the error message and `exit 1`). */
  datatype Event =
    | QuickPre | QuickNemo | QuickPost
    | PreNemo(year: nat) | Nemo(year: nat) | PostNemo(year: nat) | Wait(year: nat) | Persist(year: nat)
    | PostProc | RunIncomplete

  function Max(a: int, b: int): int { if a < b then b else a }
  function Min(a: int, b: int): int { if a < b then a else b }

  /** One loop iteration for year y: preNEMO.py, nemo.exe, postNEMO.py, wait,
      then `year=$[$year+1]` written to time.year.step. */
  function Iteration(y: nat): (s: seq<Event>)
    ensures |s| == 5
  {
    [PreNemo(y), Nemo(y), PostNemo(y), Wait(y), Persist(y + 1)]
  }

  /** `while [ $year -lt bound ]` starting from year y, uninterrupted. */
  function LoopEvents(y: nat, bound: int): seq<Event>
    decreases bound - y
  {
    if y < bound then Iteration(y) + LoopEvents(y + 1, bound) else []
  }

  /** The year the loop leaves with. */
  function LoopExit(y: nat, bound: int): (r: nat)
    ensures r == Max(y, bound)
  {
    if y < bound then bound else y
  }

  /** The first k events of a run (all of them when the run is shorter):
      what happens when the job is preempted after its k-th step. */
  function Take(s: seq<Event>, k: nat): (r: seq<Event>)
    ensures |r| == Min(k, |s|) && r == s[..|r|]
  {
    if k < |s| then s[..k] else s
  }

  /** The year found in time.year.step after a loop from y was preempted
      after k events: one more for every iteration whose last step, the
      write of the new year, was reached. */
  function ResumeYear(y: nat, bound: int, k: nat): (r: nat)
    ensures y <= r <= LoopExit(y, bound)
  {
    y + Min(k / 5, LoopExit(y, bound) - y)
  }

  lemma {:induction false} LoopLength(y: nat, bound: int)
    ensures |LoopEvents(y, bound)| == 5 * (LoopExit(y, bound) - y)
    decreases bound - y
  {
    if y < bound {
      LoopLength(y + 1, bound);
    }
  }

  /** The i-th event of the loop is step i mod 5 of the iteration for year
      y + i / 5. Every other fact about the loop follows from this one. */
  lemma {:induction false} LoopEventAt(y: nat, bound: int, i: nat)
    requires i < |LoopEvents(y, bound)|
    ensures y + i / 5 < bound
    ensures LoopEvents(y, bound)[i] == Iteration(y + i / 5)[i % 5]
    decreases bound - y
  {
    if i >= 5 {
      LoopEventAt(y + 1, bound, i - 5);
    }
  }

  /** Splitting the loop at any year m between its start and its exit. */
  lemma {:induction false} LoopSplit(y: nat, m: nat, bound: int)
    requires y <= m <= LoopExit(y, bound)
    ensures LoopEvents(y, bound) == LoopEvents(y, m) + LoopEvents(m, bound)
    decreases m - y
  {
    if y < m {
      LoopSplit(y + 1, m, bound);
    }
  }

  /** Each year in [y, bound) runs the model exactly once, no other year runs
      it, and the run of year z is the 5*(z-y)+1-th event. */
  lemma RunsEachYearOnce(y: nat, bound: int, z: nat, i: nat)
    requires i < |LoopEvents(y, bound)| && LoopEvents(y, bound)[i] == Nemo(z)
    ensures y <= z < bound && i == 5 * (z - y) + 1
  {
    LoopEventAt(y, bound, i);
  }

  lemma EveryYearRuns(y: nat, bound: int, z: nat)
    requires y <= z < bound
    ensures 5 * (z - y) + 1 < |LoopEvents(y, bound)|
    ensures LoopEvents(y, bound)[5 * (z - y) + 1] == Nemo(z)
  {
    LoopLength(y, bound);
    LoopEventAt(y, bound, 5 * (z - y) + 1);
  }

  /** The new year is written only right after postNEMO.py and the wait for
      the year before it. */
  lemma PersistAfterCleanup(y: nat, bound: int, i: nat)
    requires i < |LoopEvents(y, bound)| && LoopEvents(y, bound)[i].Persist?
    ensures i >= 2 && LoopEvents(y, bound)[i].year >= 1
    ensures LoopEvents(y, bound)[i - 1] == Wait(LoopEvents(y, bound)[i].year - 1)
    ensures LoopEvents(y, bound)[i - 2] == PostNemo(LoopEvents(y, bound)[i].year - 1)
  {
    LoopEventAt(y, bound, i);
    LoopEventAt(y, bound, i - 1);
    LoopEventAt(y, bound, i - 2);
  }

  /** Preempting a loop after k events leaves in time.year.step a year r
      such that every year before r finished its clean-up and its wait, and
      the resumed run, started from r, ends in the year an uninterrupted run
      ends in. */
  lemma ResumeCompleted(y: nat, bound: int, k: nat, z: nat)
    requires y <= z < ResumeYear(y, bound, k)
    ensures LoopExit(ResumeYear(y, bound, k), bound) == LoopExit(y, bound)
    ensures PostNemo(z) in Take(LoopEvents(y, bound), k)
    ensures Wait(z) in Take(LoopEvents(y, bound), k)
    ensures Persist(z + 1) in Take(LoopEvents(y, bound), k)
  {
    var t := Take(LoopEvents(y, bound), k);
    var i := 5 * (z - y);
    LoopLength(y, bound);
    assert i + 4 < |t|;
    LoopEventAt(y, bound, i + 2);
    LoopEventAt(y, bound, i + 3);
    LoopEventAt(y, bound, i + 4);
    assert t[i + 2] == PostNemo(z) && t[i + 3] == Wait(z) && t[i + 4] == Persist(z + 1);
  }

  /** ... and no year after r has started: only year r itself may have run
      some of its steps already. */
  lemma ResumeNoRunAhead(y: nat, bound: int, k: nat, z: nat)
    requires Nemo(z) in Take(LoopEvents(y, bound), k)
    ensures y <= z <= ResumeYear(y, bound, k)
  {
    var t := Take(LoopEvents(y, bound), k);
    var i :| 0 <= i < |t| && t[i] == Nemo(z);
    RunsEachYearOnce(y, bound, z, i);
  }

  /** ... and what the preempted run did is exactly the uninterrupted loop up
      to r followed by the first steps of year r, so the preempted run plus
      the resumed run do the uninterrupted run's work with only those steps
      of year r repeated. */
  lemma ResumeTrace(y: nat, bound: int, k: nat)
    ensures ResumeYear(y, bound, k) < LoopExit(y, bound) ==>
      Take(LoopEvents(y, bound), k) ==
        LoopEvents(y, ResumeYear(y, bound, k)) + Take(Iteration(ResumeYear(y, bound, k)), k - 5 * (ResumeYear(y, bound, k) - y))
    ensures ResumeYear(y, bound, k) == LoopExit(y, bound) ==> Take(LoopEvents(y, bound), k) == LoopEvents(y, bound)
  {
    var L := LoopEvents(y, bound);
    var r := ResumeYear(y, bound, k);
    LoopLength(y, bound);
    LoopSplit(y, r, bound);
    LoopLength(y, r);
    if r < LoopExit(y, bound) {
      assert k / 5 == r - y;
      var j := k - 5 * (r - y);
      var rest := LoopEvents(r, bound);
      assert rest == Iteration(r) + LoopEvents(r + 1, bound);
      assert L[..k] == LoopEvents(y, r) + rest[..j];
      assert rest[..j] == Take(Iteration(r), j);
    }
  }

  /** A production run from `start`: the year after phase 1 and after phase 2. */
  function PhaseOneExit(d: Driver, start: nat): nat
    requires d.Production?
  {
    LoopExit(start, d.spinBound)
  }

  function PhaseTwoExit(d: Driver, start: nat): nat
    requires d.Production?
  {
    LoopExit(PhaseOneExit(d, start), d.bound)
  }

  /** For the generated production driver: an uninterrupted run from `start`
      ends in year max(start, YEAR_MAX+1), and the post-processing branch is
      taken exactly when start <= YEAR_MAX+1 (otherwise the driver exits 1). */
  lemma ProductionFinalCheck(yearMax: nat, sel: DomainSelector, start: nat)
    ensures var d := Generate(yearMax, sel).production;
      && PhaseTwoExit(d, start) == Max(start, yearMax + 1)
      && (PhaseTwoExit(d, start) == d.finalYear <==> start <= yearMax + 1)
  {
  }

  /** The years each phase of the generated production driver runs: phase 1
      runs [start, YEAR_MAX-9), phase 2 runs [max(start, YEAR_MAX-9), YEAR_MAX+1),
      so together every year from start to YEAR_MAX runs once. */
  lemma ProductionPhases(yearMax: nat, sel: DomainSelector, start: nat, z: nat)
    ensures var d := Generate(yearMax, sel).production;
      && (Nemo(z) in LoopEvents(start, d.spinBound) <==> start <= z < yearMax - 9)
      && (Nemo(z) in LoopEvents(PhaseOneExit(d, start), d.bound) <==> Max(start, yearMax - 9) <= z < yearMax + 1)
  {
    var d := Generate(yearMax, sel).production;
    var y1 := PhaseOneExit(d, start);
    NemoInLoop(start, d.spinBound, z);
    NemoInLoop(y1, d.bound, z);
  }

  lemma NemoInLoop(y: nat, bound: int, z: nat)
    ensures Nemo(z) in LoopEvents(y, bound) <==> y <= z < bound
  {
    if Nemo(z) in LoopEvents(y, bound) {
      var i :| 0 <= i < |LoopEvents(y, bound)| && LoopEvents(y, bound)[i] == Nemo(z);
      RunsEachYearOnce(y, bound, z, i);
    }
    if y <= z < bound {
      EveryYearRuns(y, bound, z);
    }
  }

  /** The worked case YEAR_MAX = 30 from a fresh start: phase 1 runs years
      1..20, the transition happens at year 21, phase 2 runs years 21..30 and
      the post-processing check sees 31. */
  lemma ProductionThirtyYears(sel: DomainSelector, z: nat)
    ensures var d := Generate(30, sel).production;
      && PhaseOneExit(d, 1) == 21
      && (Nemo(z) in LoopEvents(1, d.spinBound) <==> 1 <= z <= 20)
      && (Nemo(z) in LoopEvents(21, d.bound) <==> 21 <= z <= 30)
      && PhaseTwoExit(d, 1) == 31 == d.finalYear
  {
    ProductionPhases(30, sel, 1, z);
  }

  /** The long driver leaves with year max(start, YEAR_MAX+1). */
  lemma LongFinalYear(yearMax: nat, sel: DomainSelector, start: nat)
    ensures LoopExit(start, Generate(yearMax, sel).long.bound) == Max(start, yearMax + 1)
  {
  }
}
