/** The yearly flux-forcing links of the ASF configuration: for every year
    of `np.arange(YEAR0, YEAR_MAX + 52)` three links `flxforce_grid_{T,U,V}_y<yyyy>.nc`
    in `flxfce/`, each pointing at the one forcing file of its grid. */
module Forcing {
  import opened Paths
  import opened Outcomes
  import opened Text
  import opened Fs
  import opened Ops
  import opened Disk

  /** The three grids in the order the loop links them. */
  function Role(j: nat): (r: string)
    requires j < 3
    ensures |r| == 1
  {
    if j == 0 then "T" else if j == 1 then "U" else "V"
  }

  /** `FLXFCE[:-3] + role + '.nc'`: the forcing path with its last three
      characters (the `.nc`) replaced by the grid letter and `.nc`. */
  function ForcingTarget(f: Path, role: string): (p: Path)
    requires f != []
    ensures p != [] && Parent(p) == Parent(f)
  {
    Parent(f) + [DropLast3(f[|f| - 1]) + role + ".nc"]
  }

  /** `str(yy).zfill(4)`. */
  function YearTag(y: nat): string {
    ZFill(Dec(y), 4)
  }

  /** `'flxforce_grid_' + role + '_y' + str(yy).zfill(4) + '.nc'`. */
  function ForcingName(role: string, y: nat): string {
    "flxforce_grid_" + role + "_y" + YearTag(y) + ".nc"
  }

  /** The three links of one year, in the order the loop body makes them. */
  function YearOps(dir: Path, f: Path, y: nat): (ops: seq<Op>)
    requires f != []
    ensures |ops| == 3
    ensures forall j :: 0 <= j < 3 ==>
              ops[j] == SymlinkOp(ForcingTarget(f, Role(j)), dir + [ForcingName(Role(j), y)])
  {
    [SymlinkOp(ForcingTarget(f, "T"), dir + [ForcingName("T", y)]),
     SymlinkOp(ForcingTarget(f, "U"), dir + [ForcingName("U", y)]),
     SymlinkOp(ForcingTarget(f, "V"), dir + [ForcingName("V", y)])]
  }

  /** The links for the years y, y+1, ..., end-1 (none when y >= end). */
  function ForcingOps(dir: Path, f: Path, y: nat, end: int): seq<Op>
    requires f != []
    decreases end - y
  {
    if y < end then YearOps(dir, f, y) + ForcingOps(dir, f, y + 1, end) else []
  }

  /** There are exactly three links per year of the half-open range. */
  lemma {:induction false} ForcingCount(dir: Path, f: Path, y: nat, end: int)
    requires f != []
    ensures |ForcingOps(dir, f, y, end)| == if y < end then 3 * (end - y) else 0
    decreases end - y
  {
    if y < end {
      ForcingCount(dir, f, y + 1, end);
    }
  }

  /** Step 3 * (z - y) + j of the links from year y is grid j of year z: every grid
      of every year in the range has its link, at that position. */
  lemma ForcingCovers(dir: Path, f: Path, y: nat, end: int, j: nat, z: nat)
    requires f != [] && j < 3 && y <= z < end
    ensures 3 * (z - y) + j < |ForcingOps(dir, f, y, end)|
    ensures ForcingOps(dir, f, y, end)[3 * (z - y) + j] ==
              SymlinkOp(ForcingTarget(f, Role(j)), dir + [ForcingName(Role(j), z)])
  {
    YearAt(dir, f, y, end, j, z);
  }

  /** The same, one triple at a time: step 3 * (z - y) + j is step j of year z. */
  lemma {:induction false} YearAt(dir: Path, f: Path, y: nat, end: int, j: nat, z: nat)
    requires f != [] && j < 3 && y <= z < end
    ensures 3 * (z - y) + j < |ForcingOps(dir, f, y, end)|
    ensures ForcingOps(dir, f, y, end)[3 * (z - y) + j] == YearOps(dir, f, z)[j]
    decreases z - y
  {
    var head, tail := YearOps(dir, f, y), ForcingOps(dir, f, y + 1, end);
    assert ForcingOps(dir, f, y, end) == head + tail;
    if z == y {
      assert (head + tail)[j] == head[j];
    } else {
      YearAt(dir, f, y + 1, end, j, z);
      ShiftTriple(head, tail, 3 * (z - (y + 1)) + j);
    }
  }

  /** Behind a triple, position k moves to position k + 3. */
  lemma ShiftTriple(head: seq<Op>, tail: seq<Op>, k: nat)
    requires |head| == 3 && k < |tail|
    ensures k + 3 < |head + tail| && (head + tail)[k + 3] == tail[k]
  {
  }

  /** Conversely, every step is one of those links: step i is grid j of
      year z, where i = 3 * (z - y) + j. */
  lemma ForcingOpAt(dir: Path, f: Path, y: nat, end: int, i: nat) returns (z: nat, j: nat)
    requires f != [] && i < |ForcingOps(dir, f, y, end)|
    ensures j < 3 && y <= z < end && i == 3 * (z - y) + j
    ensures ForcingOps(dir, f, y, end)[i] ==
              SymlinkOp(ForcingTarget(f, Role(j)), dir + [ForcingName(Role(j), z)])
  {
    ForcingCount(dir, f, y, end);
    var q;
    q, j := Thirds(i, end - y);
    z := y + q;
    ForcingCovers(dir, f, y, end, j, z);
  }

  /** Position i of a list of n triples is element j of triple q. */
  lemma Thirds(i: nat, n: int) returns (q: nat, j: nat)
    requires i < 3 * n
    ensures q < n && j < 3 && i == 3 * q + j
  {
    q, j := i / 3, i % 3;
  }

  /** Different grids or different years never share a link name. */
  lemma ForcingNameDistinct(r1: string, y1: nat, r2: string, y2: nat)
    requires |r1| == 1 && |r2| == 1 && (r1 != r2 || y1 != y2)
    ensures ForcingName(r1, y1) != ForcingName(r2, y2)
  {
    var a, b := ForcingName(r1, y1), ForcingName(r2, y2);
    var z1, z2 := YearTag(y1), YearTag(y2);
    if r1 != r2 {
      assert r1 == [r1[0]] && r2 == [r2[0]];
      assert a[14] == r1[0] && b[14] == r2[0];
    } else if |z1| != |z2| {
      assert |a| == |z1| + 20 && |b| == |z2| + 20;
    } else {
      ZFillDecValue(y1, 4);
      ZFillDecValue(y2, 4);
      assert z1 != z2;
      assert z1 == a[17..17 + |z1|] && z2 == b[17..17 + |z2|];
    }
  }

  /** Two different steps of the loop make links at different paths. */
  lemma ForcingPathsDistinct(dir: Path, f: Path, y: nat, end: int, i: nat, k: nat)
    requires f != [] && i < k < |ForcingOps(dir, f, y, end)|
    ensures var a, b := ForcingOps(dir, f, y, end)[i], ForcingOps(dir, f, y, end)[k];
      a.SymlinkOp? && b.SymlinkOp? && a.path != b.path
  {
    var zi, ji := ForcingOpAt(dir, f, y, end, i);
    var zk, jk := ForcingOpAt(dir, f, y, end, k);
    assert Role(ji) != Role(jk) || zi != zk;
    var ni, nk := ForcingName(Role(ji), zi), ForcingName(Role(jk), zk);
    ForcingNameDistinct(Role(ji), zi, Role(jk), zk);
    assert (dir + [ni])[|dir|] == ni && (dir + [nk])[|dir|] == nk;
  }

  /** Into a directory that holds nothing yet, the links all succeed: the
      tree gains exactly the 3 * (end - y) distinctly named links, each to its grid's
      forcing file, and nothing else changes. */
  lemma ForcingLinksExact(t: Tree, dir: Path, f: Path, y: nat, end: int)
    requires f != [] && DirAt(t, dir) && forall x :: x in t ==> !Below(x, dir)
    ensures var r := ExecAll(t, ForcingOps(dir, f, y, end));
      && r.outcome.Pass?
      && (forall j, z :: 0 <= j < 3 && y <= z < end ==>
            dir + [ForcingName(Role(j), z)] in r.tree &&
            r.tree[dir + [ForcingName(Role(j), z)]] == Link(ForcingTarget(f, Role(j))))
      && (forall p :: (forall j, z :: 0 <= j < 3 && y <= z < end ==> p != dir + [ForcingName(Role(j), z)]) ==>
            At(r.tree, p) == At(t, p))
  {
    var ops := ForcingOps(dir, f, y, end);
    ForcingFresh(t, dir, f, y, end);
    FreshLinksExec(t, ops);
    var r := ExecAll(t, ops);
    forall j, z | 0 <= j < 3 && y <= z < end
      ensures dir + [ForcingName(Role(j), z)] in r.tree &&
              r.tree[dir + [ForcingName(Role(j), z)]] == Link(ForcingTarget(f, Role(j)))
    {
      ForcingCovers(dir, f, y, end, j, z);
      assert ops[3 * (z - y) + j].path == dir + [ForcingName(Role(j), z)];
    }
    forall p | (forall j, z :: 0 <= j < 3 && y <= z < end ==> p != dir + [ForcingName(Role(j), z)])
      ensures At(r.tree, p) == At(t, p)
    {
      ForcingOthers(dir, f, y, end, p);
    }
  }

  /** Into a directory that holds nothing yet, the links are new, distinct
      and sit in an existing directory. */
  lemma ForcingFresh(t: Tree, dir: Path, f: Path, y: nat, end: int)
    requires f != [] && DirAt(t, dir) && forall x :: x in t ==> !Below(x, dir)
    ensures FreshLinks(t, ForcingOps(dir, f, y, end))
  {
    var ops := ForcingOps(dir, f, y, end);
    forall i | 0 <= i < |ops|
      ensures ops[i].SymlinkOp? && ops[i].path !in t && ops[i].path != [] && DirAt(t, Parent(ops[i].path))
    {
      var z, j := ForcingOpAt(dir, f, y, end, i);
      var p := ops[i].path;
      assert Parent(p) == dir && p[..|dir|] == dir;
      assert Below(p, dir);
    }
    forall i, k | 0 <= i < k < |ops| ensures ops[i].path != ops[k].path {
      ForcingPathsDistinct(dir, f, y, end, i, k);
    }
  }

  /** A path that is no grid's link for any year of the range is no step's
      link. */
  lemma ForcingOthers(dir: Path, f: Path, y: nat, end: int, p: Path)
    requires f != []
    requires forall j, z :: 0 <= j < 3 && y <= z < end ==> p != dir + [ForcingName(Role(j), z)]
    ensures forall i :: 0 <= i < |ForcingOps(dir, f, y, end)| ==>
              ForcingOps(dir, f, y, end)[i].SymlinkOp? && ForcingOps(dir, f, y, end)[i].path != p
  {
    forall i | 0 <= i < |ForcingOps(dir, f, y, end)|
      ensures ForcingOps(dir, f, y, end)[i].SymlinkOp? && ForcingOps(dir, f, y, end)[i].path != p
    {
      var z, j := ForcingOpAt(dir, f, y, end, i);
      assert p != dir + [ForcingName(Role(j), z)];
    }
  }

  /** The path model of `FLXFCE[:-3] + role + '.nc'` agrees with the string
      slicing when the last component of FLXFCE has at least three
      characters. */
  lemma ForcingTargetRendered(f: Path, role: string)
    requires f != [] && |f[|f| - 1]| >= 3
    ensures Render(ForcingTarget(f, role)) == DropLast3(Render(f)) + role + ".nc"
  {
    var last := f[|f| - 1];
    RenderSnoc(Parent(f), DropLast3(last) + role + ".nc");
    RenderSnoc(Parent(f), last);
    DropLast3Concat(Render(Parent(f)) + "/", last);
  }

  /** The links still to make from year y < end start with year y's three,
      in the order T, U, V. */
  lemma ForcingHead(dir: Path, f: Path, y: nat, end: int)
    requires f != [] && y < end
    ensures var rest := ForcingOps(dir, f, y, end);
      && |rest| >= 3
      && rest[0] == SymlinkOp(ForcingTarget(f, "T"), dir + [ForcingName("T", y)])
      && rest[1..][0] == SymlinkOp(ForcingTarget(f, "U"), dir + [ForcingName("U", y)])
      && rest[1..][1..][0] == SymlinkOp(ForcingTarget(f, "V"), dir + [ForcingName("V", y)])
      && rest[1..][1..][1..] == ForcingOps(dir, f, y + 1, end)
  {
    var rest := ForcingOps(dir, f, y, end);
    assert rest == YearOps(dir, f, y) + ForcingOps(dir, f, y + 1, end);
    assert rest[1..][1..][1..] == rest[3..];
  }

  /** The loop at the end of the ASF branch: for each year, three links. */
  method LinkForcing(fs: FileSystem, dir: Path, f: Path, y0: nat, end: int) returns (o: Outcome)
    requires f != [] && fs.Valid()
    modifies fs
    ensures Run(fs.tree, o) == ExecAll(old(fs.tree), ForcingOps(dir, f, y0, end))
    ensures fs.cwd == old(fs.cwd) && fs.Valid()
  {
    var y := y0;
    while y < end
      invariant y0 <= y
      invariant fs.Valid() && fs.cwd == old(fs.cwd)
      invariant ExecAll(fs.tree, ForcingOps(dir, f, y, end)) == ExecAll(old(fs.tree), ForcingOps(dir, f, y0, end))
      decreases end - y
    {
      ghost var rest := ForcingOps(dir, f, y, end);
      ForcingHead(dir, f, y, end);
      o := fs.Step(SymlinkOp(ForcingTarget(f, "T"), dir + [ForcingName("T", y)]), rest);
      if o.Fail? { return; }
      rest := rest[1..];
      o := fs.Step(SymlinkOp(ForcingTarget(f, "U"), dir + [ForcingName("U", y)]), rest);
      if o.Fail? { return; }
      rest := rest[1..];
      o := fs.Step(SymlinkOp(ForcingTarget(f, "V"), dir + [ForcingName("V", y)]), rest);
      if o.Fail? { return; }
      y := y + 1;
    }
    o := Pass;
  }
}
