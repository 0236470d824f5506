/** The filesystem the staging works on: a map from absolute paths to
    entries, and the primitive calls the Python code and the generated shell
    scripts make on it (`os.mkdir`, `os.symlink`, `shutil.copy2`,
    `shutil.move`/`mv`, `os.remove`/`rm`, `open(..., 'w')`, `open(..., 'a')`,
    `glob`). Each primitive is a function from a tree to a `Run`: the new
    tree and whether the call succeeded. A failing primitive changes nothing;
    the caller that raises on it keeps what earlier calls did. */
module Fs {
  import opened Paths
  import opened Outcomes
  import opened Text
  import Namelist
  import Drivers

  /** What a regular file holds. Namelists and the generated drivers are kept
      as their structure; everything else the staging writes or copies
      without looking inside is a `Blob`. */
  datatype Content =
    | Text(lines: seq<string>)
    | Nml(doc: Namelist.Doc)
    | Script(driver: Drivers.Driver)
    | Blob(tag: string)

  datatype Entry = File(content: Content) | Link(target: Path) | Dir

  type Tree = map<Path, Entry>

  /** The result of a step: the tree after it, and Pass or the failure. */
  datatype Run = Run(tree: Tree, outcome: Outcome)

  function At(t: Tree, p: Path): Option<Entry> {
    if p in t then Some(t[p]) else None
  }

  predicate DirAt(t: Tree, p: Path) {
    p in t && t[p].Dir?
  }

  /** The root is a directory and so is the parent of every entry. */
  ghost predicate WellFormed(t: Tree) {
    DirAt(t, []) && forall p :: p in t && p != [] ==> DirAt(t, Parent(p))
  }

  /** No directory disappears and none turns into something else. */
  ghost predicate DirsKept(t: Tree, u: Tree) {
    forall p :: DirAt(t, p) ==> DirAt(u, p)
  }

  /** Nothing outside `s` differs between t and u. */
  ghost predicate SameOutside(t: Tree, u: Tree, s: set<Path>) {
    forall p :: p !in s ==> At(u, p) == At(t, p)
  }

  /** The path a link-following call acts on: a link's target, or the path
      itself. Only one level of links is followed. */
  function Resolve(t: Tree, p: Path): (q: Path)
    ensures p !in t || !t[p].Link? ==> q == p
  {
    if p in t && t[p].Link? then t[p].target else p
  }

  /** A link resolves to its target; the target itself is not followed. */
  lemma ResolveLink(t: Tree, p: Path)
    ensures p in t && t[p].Link? ==> Resolve(t, p) == t[p].target
    ensures Resolve(t, p) != p ==> p in t && t[p].Link?
  {
  }

  function Lookup(t: Tree, p: Path): Option<Entry> {
    At(t, Resolve(t, p))
  }

  /** `os.path.exists`: false for a dangling link. */
  predicate Exists(t: Tree, p: Path) {
    Lookup(t, p).Some?
  }

  /** `os.path.isfile` and `[ -f p ]`. */
  predicate IsFile(t: Tree, p: Path) {
    Lookup(t, p).Some? && Lookup(t, p).value.File?
  }

  /** `os.path.isdir`. */
  predicate IsDir(t: Tree, p: Path) {
    Lookup(t, p) == Some(Dir)
  }

  function ContentOf(t: Tree, p: Path): Content
    requires IsFile(t, p)
  {
    Lookup(t, p).value.content
  }

  /** A name `glob` skips. */
  predicate Hidden(name: string) {
    |name| > 0 && name[0] == '.'
  }

  /** The names that glob matches in directory `dir`. */
  function Children(t: Tree, dir: Path): (names: set<string>)
    ensures forall n :: n in names <==> dir + [n] in t && !Hidden(n)
  {
    var names := set p | p in t && |p| == |dir| + 1 && p[..|dir|] == dir && !Hidden(p[|dir|]) :: p[|dir|];
    assert forall n :: dir + [n] in t && !Hidden(n) ==> n in names by {
      forall n | dir + [n] in t && !Hidden(n) ensures n in names {
        var p := dir + [n];
        assert p[..|dir|] == dir && p[|dir|] == n;
      }
    }
    assert forall n :: n in names ==> dir + [n] in t by {
      forall n | n in names ensures dir + [n] in t {
        var p :| p in t && |p| == |dir| + 1 && p[..|dir|] == dir && !Hidden(p[|dir|]) && p[|dir|] == n;
        assert p == dir + [n];
      }
    }
    names
  }

  /** `sorted(glob.glob(dir + '*'))`, as base names. */
  function Glob(t: Tree, dir: Path): (r: seq<string>)
    ensures forall n :: n in r <==> dir + [n] in t && !Hidden(n)
    ensures StrictlySorted(r)
  {
    Sorted(Children(t, dir))
  }

  // ---------------------------------------------------------------------
  // Well-formedness is kept by adding an entry under a directory and by
  // replacing or removing anything but a directory.

  lemma SetKeepsWellFormed(t: Tree, p: Path, e: Entry)
    requires p != [] && DirAt(t, Parent(p)) && !DirAt(t, p)
    ensures WellFormed(t) ==> WellFormed(t[p := e])
  {
    if WellFormed(t) {
      var u := t[p := e];
      forall q | q in u && q != [] ensures DirAt(u, Parent(q)) {
        if q != p {
          assert DirAt(t, Parent(q));
          assert Parent(q) != p;
        }
      }
    }
  }

  lemma ReplaceKeepsWellFormed(t: Tree, p: Path, e: Entry)
    requires p in t && !t[p].Dir?
    ensures WellFormed(t) ==> WellFormed(t[p := e])
  {
    if WellFormed(t) {
      SetKeepsWellFormed(t, p, e);
    }
  }

  lemma RemoveKeepsWellFormed(t: Tree, p: Path)
    requires p in t && !t[p].Dir?
    ensures WellFormed(t) ==> WellFormed(t - {p})
  {
    if WellFormed(t) {
      var u := t - {p};
      forall q | q in u && q != [] ensures DirAt(u, Parent(q)) {
        assert DirAt(t, Parent(q));
      }
    }
  }

  // ---------------------------------------------------------------------
  // The primitives.

  /** `os.mkdir(p)`: fails if the name is taken (even by a dangling link)
      or the parent is not a directory. */
  function Mkdir(t: Tree, p: Path): (r: Run)
    ensures r.outcome.Pass? <==> p !in t && p != [] && DirAt(t, Parent(p))
    ensures r.outcome.Pass? ==> r.tree == t[p := Dir]
    ensures r.outcome.Fail? ==> r.tree == t
    ensures WellFormed(t) ==> WellFormed(r.tree)
    ensures DirsKept(t, r.tree)
  {
    if p in t then Run(t, Fail(AlreadyExists(p)))
    else if p == [] || !DirAt(t, Parent(p)) then Run(t, Fail(NoParent(p)))
    else
      SetKeepsWellFormed(t, p, Dir);
      Run(t[p := Dir], Pass)
  }

  /** `os.symlink(target, p)`: same conditions as mkdir; the target need not
      exist. */
  function Symlink(t: Tree, target: Path, p: Path): (r: Run)
    ensures r.outcome.Pass? <==> p !in t && p != [] && DirAt(t, Parent(p))
    ensures r.outcome.Pass? ==> r.tree == t[p := Link(target)]
    ensures r.outcome.Fail? ==> r.tree == t
    ensures WellFormed(t) ==> WellFormed(r.tree)
    ensures DirsKept(t, r.tree)
  {
    if p in t then Run(t, Fail(AlreadyExists(p)))
    else if p == [] || !DirAt(t, Parent(p)) then Run(t, Fail(NoParent(p)))
    else
      SetKeepsWellFormed(t, p, Link(target));
      Run(t[p := Link(target)], Pass)
  }

  /** `open(p, 'w')` followed by writes and a close: replaces whatever file
      the path resolves to, or creates it. */
  function WriteFile(t: Tree, p: Path, c: Content): (r: Run)
    ensures r.outcome.Pass? <==> var d := Resolve(t, p); !DirAt(t, d) && d != [] && DirAt(t, Parent(d))
    ensures r.outcome.Pass? ==> r.tree == t[Resolve(t, p) := File(c)]
    ensures r.outcome.Fail? ==> r.tree == t
    ensures WellFormed(t) ==> WellFormed(r.tree)
    ensures DirsKept(t, r.tree)
  {
    var d := Resolve(t, p);
    if DirAt(t, d) then Run(t, Fail(IsADirectory(p)))
    else if d == [] || !DirAt(t, Parent(d)) then Run(t, Fail(NoParent(p)))
    else
      SetKeepsWellFormed(t, d, File(c));
      Run(t[d := File(c)], Pass)
  }

  /** `open(p, 'a').write(line + '\n')`: extends a text file by one line, or
      creates it holding that line. */
  function AppendLine(t: Tree, p: Path, line: string): (r: Run)
    ensures r.outcome.Pass? ==> r.tree.Keys == t.Keys + {Resolve(t, p)}
    ensures r.outcome.Pass? && IsFile(t, p) ==>
              ContentOf(t, p).Text? && r.tree == t[Resolve(t, p) := File(Text(ContentOf(t, p).lines + [line]))]
    ensures r.outcome.Pass? && !Exists(t, p) ==> r.tree == t[Resolve(t, p) := File(Text([line]))]
    ensures r.outcome.Fail? ==> r.tree == t
    ensures WellFormed(t) ==> WellFormed(r.tree)
    ensures DirsKept(t, r.tree)
  {
    var d := Resolve(t, p);
    if d in t then
      (match t[d]
       case File(Text(ls)) =>
         ReplaceKeepsWellFormed(t, d, File(Text(ls + [line])));
         Run(t[d := File(Text(ls + [line]))], Pass)
       case Dir => Run(t, Fail(IsADirectory(p)))
       case _ => Run(t, Fail(NotText(p))))
    else if d == [] || !DirAt(t, Parent(d)) then Run(t, Fail(NoParent(p)))
    else
      SetKeepsWellFormed(t, d, File(Text([line])));
      Run(t[d := File(Text([line]))], Pass)
  }

  /** `shutil.copy2(src, dst)` with `dst` naming the file to write: both
      ends follow links. */
  function Copy(t: Tree, src: Path, dst: Path): (r: Run)
    ensures r.outcome.Pass? ==> IsFile(t, src) && Resolve(t, src) != Resolve(t, dst)
    ensures r.outcome.Pass? ==> r.tree == t[Resolve(t, dst) := File(ContentOf(t, src))]
    ensures !Exists(t, src) ==> r.outcome == Fail(Missing(src))
    ensures r.outcome.Fail? ==> r.tree == t
    ensures WellFormed(t) ==> WellFormed(r.tree)
    ensures DirsKept(t, r.tree)
  {
    if !Exists(t, src) then Run(t, Fail(Missing(src)))
    else if !IsFile(t, src) then Run(t, Fail(IsADirectory(src)))
    else if Resolve(t, src) == Resolve(t, dst) then Run(t, Fail(SameFile(dst)))
    else WriteFile(t, dst, ContentOf(t, src))
  }

  /** Appending succeeds exactly when the path, after one link, is a text
      file, or is absent with a directory as parent. */
  lemma AppendLineSucceeds(t: Tree, p: Path, line: string)
    ensures AppendLine(t, p, line).outcome.Pass? <==>
              var d := Resolve(t, p);
              if d in t then t[d].File? && t[d].content.Text? else d != [] && DirAt(t, Parent(d))
  {
  }

  /** A copy succeeds exactly when the source is a file, the two ends
      differ and the destination, after one link, can be written. */
  lemma CopySucceeds(t: Tree, src: Path, dst: Path)
    ensures Copy(t, src, dst).outcome.Pass? <==>
              && IsFile(t, src) && Resolve(t, src) != Resolve(t, dst)
              && var d := Resolve(t, dst); !DirAt(t, d) && d != [] && DirAt(t, Parent(d))
  {
  }

  /** `shutil.move(src, dst)` and `mv src dst` on a file or a link: the
      entry itself (a link is not followed) takes the place of `dst`. */
  function Move(t: Tree, src: Path, dst: Path): (r: Run)
    ensures r.outcome.Pass? <==> src in t && !t[src].Dir? && !DirAt(t, dst)
                                 && (src == dst || (dst != [] && DirAt(t, Parent(dst))))
    ensures r.outcome.Pass? ==> r.tree == (t - {src})[dst := t[src]]
    ensures src !in t ==> r.outcome == Fail(Missing(src))
    ensures r.outcome.Fail? ==> r.tree == t
    ensures WellFormed(t) ==> WellFormed(r.tree)
    ensures DirsKept(t, r.tree)
  {
    if src !in t then Run(t, Fail(Missing(src)))
    else if t[src].Dir? then Run(t, Fail(IsADirectory(src)))
    else if DirAt(t, dst) then Run(t, Fail(IsADirectory(dst)))
    else if src == dst then
      assert (t - {src})[dst := t[src]] == t;
      Run(t, Pass)
    else if dst == [] || !DirAt(t, Parent(dst)) then Run(t, Fail(NoParent(dst)))
    else
      RemoveKeepsWellFormed(t, src);
      SetKeepsWellFormed(t - {src}, dst, t[src]);
      Run((t - {src})[dst := t[src]], Pass)
  }

  /** `os.remove(p)` and `rm p`: a file or a link, never a directory. */
  function Remove(t: Tree, p: Path): (r: Run)
    ensures r.outcome.Pass? <==> p in t && !t[p].Dir?
    ensures r.outcome.Pass? ==> r.tree == t - {p}
    ensures r.outcome.Fail? ==> r.tree == t
    ensures WellFormed(t) ==> WellFormed(r.tree)
    ensures DirsKept(t, r.tree)
  {
    if p !in t then Run(t, Fail(Missing(p)))
    else if t[p].Dir? then Run(t, Fail(IsADirectory(p)))
    else
      RemoveKeepsWellFormed(t, p);
      Run(t - {p}, Pass)
  }

  /** `f90nml.patch(src, patch, out_path=out)` and `f90nml --patch`: reads
      the namelist `src`, writes it with the patch applied to `out`. */
  function PatchFile(t: Tree, src: Path, patch: Namelist.Patch, out: Path): (r: Run)
    ensures r.outcome.Pass? ==> IsFile(t, src) && ContentOf(t, src).Nml?
    ensures r.outcome.Pass? ==>
              r.tree == t[Resolve(t, out) := File(Nml(Namelist.Apply(ContentOf(t, src).doc, patch)))]
    ensures !Exists(t, src) ==> r.outcome == Fail(Missing(src))
    ensures r.outcome.Fail? ==> r.tree == t
    ensures WellFormed(t) ==> WellFormed(r.tree)
    ensures DirsKept(t, r.tree)
  {
    if !Exists(t, src) then Run(t, Fail(Missing(src)))
    else if !(IsFile(t, src) && ContentOf(t, src).Nml?) then Run(t, Fail(NotANamelist(src)))
    else WriteFile(t, out, Nml(Namelist.Apply(ContentOf(t, src).doc, patch)))
  }

  /** `os.makedirs(p)` inside the `mkdir` helper, which also accepts a path
      that is already a directory. */
  function MakeDirs(t: Tree, p: Path): (r: Run)
    ensures r.outcome.Pass? ==> IsDir(r.tree, p)
    ensures WellFormed(t) && r.outcome.Fail? ==> r.tree == t
    ensures WellFormed(t) ==> WellFormed(r.tree)
    ensures DirsKept(t, r.tree)
    ensures SameOutside(t, r.tree, Prefixes(p))
    ensures IsDir(t, p) ==> r == Run(t, Pass)
  {
    if IsDir(t, p) then Run(t, Pass)
    else if p == [] then Run(t, Fail(NotADirectory(p)))
    else
      var r := MakeDirsFrom(t, p, 1);
      MakeDirsFromAtomic(t, p, 1);
      assert r.outcome.Pass? ==> DirAt(r.tree, p);
      r
  }

  /** The paths `p[..1]`, ..., `p[..|p|]`. */
  function Prefixes(p: Path): (s: set<Path>)
    ensures forall q :: q in s <==> 1 <= |q| <= |p| && q == p[..|q|]
  {
    var s := set j | 1 <= j <= |p| :: p[..j];
    assert forall q :: 1 <= |q| <= |p| && q == p[..|q|] ==> q in s by {
      forall q | 1 <= |q| <= |p| && q == p[..|q|] ensures q in s {
        assert q == p[..|q|];
      }
    }
    s
  }

  /** `os.makedirs` creates the missing prefixes p[..j], j >= i, shortest
      first, and stops at the first prefix that is something other than a
      directory, keeping what it created. */
  function MakeDirsFrom(t: Tree, p: Path, i: nat): (r: Run)
    requires 1 <= i
    ensures i <= |p| && r.outcome.Pass? ==> DirAt(r.tree, p)
    ensures i > |p| ==> r == Run(t, Pass)
    ensures WellFormed(t) ==> WellFormed(r.tree)
    ensures DirsKept(t, r.tree)
    ensures SameOutside(t, r.tree, Prefixes(p))
    decreases |p| + 1 - i
  {
    if i > |p| then Run(t, Pass)
    else
      var q := p[..i];
      if DirAt(t, q) then
        MakeDirsFrom(t, p, i + 1)
      else
        var r1 := Mkdir(t, q);
        if r1.outcome.Fail? then r1
        else MakeDirsFrom(r1.tree, p, i + 1)
  }

  /** In a well-formed tree the `mkdir` helper succeeds exactly when the
      path is a directory already or nothing but directories stands on the
      way to it. */
  lemma MakeDirsSucceeds(t: Tree, p: Path)
    ensures WellFormed(t) ==> (MakeDirs(t, p).outcome.Pass? <==> IsDir(t, p) || (p != [] && Creatable(t, p, 1)))
  {
    if WellFormed(t) && !IsDir(t, p) && p != [] {
      MakeDirsFromPass(t, p, 1);
    }
  }

  /** Every prefix p[..k], k >= i, is a directory or absent: nothing in the
      way of `os.makedirs`. */
  ghost predicate Creatable(t: Tree, p: Path, i: nat) {
    forall k :: i <= k <= |p| ==> p[..k] !in t || DirAt(t, p[..k])
  }

  /** In a well-formed tree, from a prefix that is a directory, `os.makedirs`
      succeeds exactly when nothing but directories stands in its way. */
  lemma {:induction false} MakeDirsFromPass(t: Tree, p: Path, i: nat)
    requires 1 <= i <= |p| + 1
    ensures WellFormed(t) && DirAt(t, p[..i - 1]) ==> (MakeDirsFrom(t, p, i).outcome.Pass? <==> Creatable(t, p, i))
    decreases |p| + 1 - i
  {
    if WellFormed(t) && DirAt(t, p[..i - 1]) && i <= |p| {
      var q := p[..i];
      assert Parent(q) == p[..i - 1];
      if DirAt(t, q) {
        MakeDirsFromPass(t, p, i + 1);
      } else if q !in t {
        NothingBelowAbsent(t, q);
        var u := t[q := Dir];
        forall x | x in u ensures !Below(x, q) {
          assert x != q ==> x in t;
        }
        MakeDirsBelowFresh(u, p, i + 1);
        forall k | i < k <= |p| ensures p[..k] !in t {
          assert Below(p[..k], q);
        }
      }
    }
  }

  /** In a well-formed tree `os.makedirs` either succeeds or fails before
      creating anything: once it has created one directory, everything
      below it is absent. */
  lemma {:induction false} MakeDirsFromAtomic(t: Tree, p: Path, i: nat)
    requires 1 <= i
    ensures WellFormed(t) && MakeDirsFrom(t, p, i).outcome.Fail? ==> MakeDirsFrom(t, p, i).tree == t
    decreases |p| + 1 - i
  {
    if WellFormed(t) && i <= |p| {
      var q := p[..i];
      if DirAt(t, q) {
        MakeDirsFromAtomic(t, p, i + 1);
      } else if q !in t && DirAt(t, Parent(q)) {
        NothingBelowAbsent(t, q);
        MakeDirsBelowFresh(t[q := Dir], p, i + 1);
      }
    }
  }

  /** In a well-formed tree every proper prefix of an entry is a directory. */
  lemma {:induction false} AncestorIsDir(t: Tree, x: Path, k: nat)
    requires k < |x|
    ensures WellFormed(t) && x in t ==> DirAt(t, x[..k])
    decreases |x| - k
  {
    if WellFormed(t) && x in t {
      if k < |x| - 1 {
        AncestorIsDir(t, x, k + 1);
        assert Parent(x[..k + 1]) == x[..k];
      } else {
        assert x[..k] == Parent(x);
      }
    }
  }

  /** Nothing lies below a path that a well-formed tree does not hold. */
  lemma NothingBelowAbsent(t: Tree, q: Path)
    ensures WellFormed(t) && q !in t ==> forall x :: x in t ==> !Below(x, q)
  {
    if WellFormed(t) && q !in t {
      forall x | x in t ensures !Below(x, q) {
        if Below(x, q) {
          AncestorIsDir(t, x, |q|);
        }
      }
    }
  }

  /** Below a directory that was just created nothing exists, so creating
      the remaining prefixes cannot fail. */
  lemma {:induction false} MakeDirsBelowFresh(t: Tree, p: Path, i: nat)
    requires 2 <= i && i - 1 <= |p|
    ensures WellFormed(t) && DirAt(t, p[..i - 1]) && (forall x :: x in t ==> !Below(x, p[..i - 1])) ==>
              MakeDirsFrom(t, p, i).outcome.Pass?
    decreases |p| + 1 - i
  {
    if WellFormed(t) && DirAt(t, p[..i - 1]) && (forall x :: x in t ==> !Below(x, p[..i - 1])) && i <= |p| {
      var q := p[..i];
      assert Below(q, p[..i - 1]);
      assert Parent(q) == p[..i - 1];
      assert q !in t;
      var u := t[q := Dir];
      assert Mkdir(t, q) == Run(u, Pass);
      SetKeepsWellFormed(t, q, Dir);
      forall x | x in u ensures !Below(x, q) {
        assert x != q ==> x in t;
      }
      MakeDirsBelowFresh(u, p, i + 1);
      assert MakeDirsFrom(t, p, i) == MakeDirsFrom(u, p, i + 1);
    }
  }

  // ---------------------------------------------------------------------
  // The flat copy of a template directory (the `glob`/`isfile`/`copy2`
  // loop in `main` and in `mkdomcfg`).

  /** One iteration: copy `src/n` to `dst/n` when `src/n` is a regular file
      (following a link) at that moment; skip it otherwise. */
  function CopyOne(t: Tree, src: Path, dst: Path, n: string): (r: Run)
    ensures r.outcome.Fail? ==> r.tree == t
    ensures WellFormed(t) ==> WellFormed(r.tree)
    ensures DirsKept(t, r.tree)
  {
    if IsFile(t, src + [n]) then Copy(t, src + [n], dst + [n]) else Run(t, Pass)
  }

  /** The loop over the listed names, in order, stopping at the first copy
      that raises. */
  function CopyEach(t: Tree, src: Path, dst: Path, names: seq<string>): (r: Run)
    ensures r.outcome.Fail? ==> WellFormed(t) ==> WellFormed(r.tree)
    ensures WellFormed(t) ==> WellFormed(r.tree)
    ensures DirsKept(t, r.tree)
    decreases |names|
  {
    if names == [] then Run(t, Pass)
    else
      var r := CopyOne(t, src, dst, names[0]);
      if r.outcome.Fail? then r else CopyEach(r.tree, src, dst, names[1..])
  }

  /** `ifiles=sorted(glob.glob(src+'*')); assert(ifiles!=[])`, then the loop. */
  function CopyFlat(t: Tree, src: Path, dst: Path): (r: Run)
    ensures Glob(t, src) == [] ==> r == Run(t, Fail(EmptyGlob(src)))
    ensures WellFormed(t) ==> WellFormed(r.tree)
    ensures DirsKept(t, r.tree)
  {
    var names := Glob(t, src);
    if names == [] then Run(t, Fail(EmptyGlob(src))) else CopyEach(t, src, dst, names)
  }

  lemma ChildInjective(dst: Path)
    ensures forall a, b :: dst + [a] == dst + [b] ==> a == b
  {
    forall a, b | dst + [a] == dst + [b] ensures a == b {
      assert (dst + [a])[|dst|] == a && (dst + [b])[|dst|] == b;
    }
  }

  /** The regular files among the listed names, as they land in `dst`. */
  function CopiedFiles(t: Tree, src: Path, dst: Path, names: seq<string>): (m: Tree)
    ensures forall n :: dst + [n] in m <==> n in names && IsFile(t, src + [n])
    ensures forall n :: dst + [n] in m ==> m[dst + [n]] == File(ContentOf(t, src + [n]))
    decreases |names|
  {
    if names == [] then map[]
    else
      var m := CopiedFiles(t, src, dst, names[..|names| - 1]);
      var n := names[|names| - 1];
      ChildInjective(dst);
      assert forall k :: k in names <==> k in names[..|names| - 1] || k == n;
      if IsFile(t, src + [n]) then m[dst + [n] := File(ContentOf(t, src + [n]))] else m
  }

  lemma {:induction false} CopiedFilesBelow(t: Tree, src: Path, dst: Path, names: seq<string>, p: Path)
    requires p in CopiedFiles(t, src, dst, names)
    ensures Below(p, dst) && |p| == |dst| + 1
    decreases |names|
  {
    var n := names[|names| - 1];
    if p == dst + [n] {
      assert p[..|dst|] == dst;
    } else {
      CopiedFilesBelow(t, src, dst, names[..|names| - 1], p);
    }
  }

  /** The conditions under which the flat copy is exact: the destination is
      a directory holding none of the template's names, the template lies
      outside it and no template link points into it. */
  ghost predicate FreshCopy(t: Tree, src: Path, dst: Path) {
    && WellFormed(t) && DirAt(t, dst)
    && (forall n :: src + [n] in t ==> dst + [n] !in t)
    && src != dst && !Below(src, dst)
    && (forall n :: src + [n] in t && t[src + [n]].Link? ==> !Below(t[src + [n]].target, dst))
  }

  /** The copy into a fresh directory: every regular file on top of the
      template, and nothing else, appears under the same name in `dst`;
      subdirectories, hidden names and dangling links are skipped and the
      template itself is left as it was. */
  lemma FlatCopyExact(t: Tree, src: Path, dst: Path)
    requires FreshCopy(t, src, dst)
    ensures Glob(t, src) == [] ==> CopyFlat(t, src, dst) == Run(t, Fail(EmptyGlob(src)))
    ensures Glob(t, src) != [] ==>
              CopyFlat(t, src, dst) == Run(t + CopiedFiles(t, src, dst, Glob(t, src)), Pass)
  {
    var names := Glob(t, src);
    if names != [] {
      assert CopyFlat(t, src, dst) == CopyEach(t, src, dst, names);
      assert CopiedFiles(t, src, dst, names[..0]) == map[] by { assert names[..0] == []; }
      MergeEmpty(t);
      CopyEachExact(t, src, dst, names, 0);
      assert names[0..] == names;
    }
  }

  /** One step of the loop: copying name n after the names in `done`. */
  lemma CopyOneFresh(t0: Tree, src: Path, dst: Path, done: seq<string>, n: string)
    requires FreshCopy(t0, src, dst) && n !in done && src + [n] in t0
    ensures CopyOne(t0 + CopiedFiles(t0, src, dst, done), src, dst, n) ==
              Run(t0 + CopiedFiles(t0, src, dst, done + [n]), Pass)
  {
    var c := CopiedFiles(t0, src, dst, done);
    assert (done + [n])[..|done + [n]| - 1] == done;
    var t := t0 + c;
    var s := src + [n];
    var d := dst + [n];
    // the template entry and what it resolves to are untouched by earlier copies
    assert s !in c by {
      if s in c {
        CopiedFilesBelow(t0, src, dst, done, s);
      }
    }
    assert Resolve(t, s) == Resolve(t0, s);
    assert Resolve(t0, s) !in c by {
      if Resolve(t0, s) in c {
        CopiedFilesBelow(t0, src, dst, done, Resolve(t0, s));
      }
    }
    assert Lookup(t, s) == Lookup(t0, s);
    assert d[..|dst|] == dst;
    assert d !in t0 && d !in c;
    assert Resolve(t, d) == d;
    assert Parent(d) == dst;
    if IsFile(t0, s) {
      assert Resolve(t0, s) != d;
      var v := File(ContentOf(t0, s));
      assert dst !in c by {
        if dst in c { CopiedFilesBelow(t0, src, dst, done, dst); }
      }
      assert DirAt(t, dst);
      assert IsFile(t, s) && ContentOf(t, s) == ContentOf(t0, s);
      assert WriteFile(t, d, ContentOf(t, s)) == Run(t[d := v], Pass);
      assert Copy(t, s, d) == Run(t[d := v], Pass);
      assert CopyOne(t, src, dst, n) == Run(t[d := v], Pass);
      assert CopiedFiles(t0, src, dst, done + [n]) == c[d := v];
      MergeUpdate(t0, c, d, v);
    }
  }

  lemma MergeEmpty(a: Tree)
    ensures a + map[] == a
  {
  }

  lemma MergeUpdate(a: Tree, c: Tree, d: Path, v: Entry)
    ensures (a + c)[d := v] == a + c[d := v]
  {
  }

  /** The induction behind FlatCopyExact: after copying the first i names
      the tree is the original plus those copies. */
  lemma {:induction false} CopyEachExact(t0: Tree, src: Path, dst: Path, names: seq<string>, i: nat)
    requires FreshCopy(t0, src, dst)
    requires StrictlySorted(names) && i <= |names|
    requires forall k :: 0 <= k < |names| ==> src + [names[k]] in t0
    ensures CopyEach(t0 + CopiedFiles(t0, src, dst, names[..i]), src, dst, names[i..]) ==
              Run(t0 + CopiedFiles(t0, src, dst, names), Pass)
    decreases |names| - i
  {
    if i == |names| {
      assert names[..i] == names;
    } else {
      var n := names[i];
      assert n !in names[..i] by {
        if n in names[..i] {
          var j :| 0 <= j < i && names[j] == n;
          SortedDistinct(names, j, i);
        }
      }
      CopyOneFresh(t0, src, dst, names[..i], n);
      assert names[..i] + [n] == names[..i + 1];
      assert names[i..][1..] == names[i + 1..];
      CopyEachExact(t0, src, dst, names, i + 1);
    }
  }
}
