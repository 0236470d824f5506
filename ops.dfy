/** The steps the staging and the drivers perform, as data, and what a list
    of them does to a tree: each step runs on the tree the previous one left
    and the first failing step ends the list, keeping what was done before
    it (the Python code raises; the shell scripts `exit 1`). */
module Ops {
  import opened Paths
  import opened Outcomes
  import opened Fs
  import Namelist

  datatype Op =
    | MkdirOp(path: Path)                        // os.mkdir
    | MakeDirsOp(path: Path)                     // the `mkdir` helper (os.makedirs)
    | SymlinkOp(target: Path, path: Path)        // os.symlink(target, path)
    | WriteOp(path: Path, content: Content)      // open(path, 'w') and its writes
    | WriteIfAbsentOp(path: Path, content: Content)  // `if not os.path.exists(path)` + open 'w'
    | AppendOp(path: Path, line: string)         // open(path, 'a').write(line + '\n')
    | CopyOp(src: Path, dst: Path)               // shutil.copy2
    | CopyFlatOp(src: Path, dst: Path)           // the glob/isfile/copy2 loop
    | MoveOp(src: Path, dst: Path)               // shutil.move, mv
    | RemoveOp(path: Path)                       // os.remove, rm
    | PatchOp(src: Path, patch: Namelist.Patch, out: Path)  // f90nml patch
    | RequireExists(path: Path, failure: Failure)   // assert(os.path.exists(path)), or the
                                                 // existence check before `pdb.set_trace()`
    | RefuseExisting(path: Path)                 // if os.path.exists(path): sys.exit
    | RequireFile(path: Path, failure: Failure)  // if [ -f path ] ... else exit 1
    | Produce(path: Path, output: Option<Content>)  // an external tool that may write `path`
    | Unchecked(op: Op)                          // a shell command whose status is ignored
    | Abort(failure: Failure)                    // sys.exit / pdb.set_trace() on a bad argument

  /** The primitives a single call performs: everything but the copy loop,
      which is a loop of its own, and the wrappers built from others. */
  predicate Primitive(op: Op) {
    !op.CopyFlatOp? && !op.Unchecked?
  }

  function Exec(t: Tree, op: Op): Run {
    match op
    case MkdirOp(p) => Mkdir(t, p)
    case MakeDirsOp(p) => MakeDirs(t, p)
    case SymlinkOp(target, p) => Symlink(t, target, p)
    case WriteOp(p, c) => WriteFile(t, p, c)
    case WriteIfAbsentOp(p, c) => if Exists(t, p) then Run(t, Pass) else WriteFile(t, p, c)
    case AppendOp(p, line) => AppendLine(t, p, line)
    case CopyOp(src, dst) => Copy(t, src, dst)
    case CopyFlatOp(src, dst) => CopyFlat(t, src, dst)
    case MoveOp(src, dst) => Move(t, src, dst)
    case RemoveOp(p) => Remove(t, p)
    case PatchOp(src, patch, out) => PatchFile(t, src, patch, out)
    case RequireExists(p, f) => if Exists(t, p) then Run(t, Pass) else Run(t, Fail(f))
    case RefuseExisting(p) => if Exists(t, p) then Run(t, Fail(DirectoryConflict(p))) else Run(t, Pass)
    case RequireFile(p, f) => if IsFile(t, p) then Run(t, Pass) else Run(t, Fail(f))
    case Produce(p, out) =>
      if out.Some? then Run(WriteFile(t, p, out.value).tree, Pass) else Run(t, Pass)
    case Unchecked(inner) => Run(Exec(t, inner).tree, Pass)
    case Abort(f) => Run(t, Fail(f))
  }

  /** Every step keeps the tree well-formed, never removes a directory and,
      except for makedirs and the copy loop (which keep what they did before
      the failing call), changes nothing when it fails. */
  lemma {:induction false} ExecKeeps(t: Tree, op: Op)
    ensures Exec(t, op).outcome.Fail? && !op.MakeDirsOp? && !op.CopyFlatOp? ==> Exec(t, op).tree == t
    ensures WellFormed(t) ==> WellFormed(Exec(t, op).tree)
    ensures DirsKept(t, Exec(t, op).tree)
  {
    match op {
      case MkdirOp(p) =>
      case MakeDirsOp(p) =>
      case SymlinkOp(target, p) =>
      case WriteOp(p, c) =>
      case WriteIfAbsentOp(p, c) =>
      case AppendOp(p, line) =>
      case CopyOp(src, dst) =>
      case CopyFlatOp(src, dst) =>
      case MoveOp(src, dst) =>
      case RemoveOp(p) =>
      case PatchOp(src, patch, out) =>
      case RequireExists(p, f) =>
      case RefuseExisting(p) =>
      case RequireFile(p, f) =>
      case Produce(p, out) =>
      case Unchecked(inner) => ExecKeeps(t, inner);
      case Abort(f) =>
    }
  }

  /** One iteration of the copy loop is a copy step. */
  lemma CopyOneIsCopy(t: Tree, src: Path, dst: Path, n: string)
    requires IsFile(t, src + [n])
    ensures CopyOne(t, src, dst, n) == Exec(t, CopyOp(src + [n], dst + [n]))
  {
  }

  /** The steps in order, stopping at the first failure. */
  function ExecAll(t: Tree, ops: seq<Op>): (r: Run)
    ensures WellFormed(t) ==> WellFormed(r.tree)
    ensures DirsKept(t, r.tree)
    decreases |ops|
  {
    if ops == [] then Run(t, Pass)
    else
      ExecKeeps(t, ops[0]);
      var r := Exec(t, ops[0]);
      if r.outcome.Fail? then r else ExecAll(r.tree, ops[1..])
  }

  /** A list of one step is that step. */
  lemma ExecOne(t: Tree, op: Op)
    ensures ExecAll(t, [op]) == Exec(t, op)
  {
    assert [op][1..] == [];
  }

  /** A list whose first step succeeds continues from that step's tree. */
  lemma ExecPass(t: Tree, ops: seq<Op>, u: Tree)
    requires ops != [] && Exec(t, ops[0]) == Run(u, Pass)
    ensures ExecAll(t, ops) == ExecAll(u, ops[1..])
  {
  }

  /** A list whose first step fails ends with that step. */
  lemma ExecFail(t: Tree, ops: seq<Op>)
    requires ops != [] && Exec(t, ops[0]).outcome.Fail?
    ensures ExecAll(t, ops) == Exec(t, ops[0])
  {
  }

  lemma ExecCopyFlat(t: Tree, src: Path, dst: Path)
    ensures ExecAll(t, [CopyFlatOp(src, dst)]) == CopyFlat(t, src, dst)
  {
    ExecOne(t, CopyFlatOp(src, dst));
  }

  /** Running two lists one after the other is running their concatenation. */
  lemma {:induction false} ExecAllAppend(t: Tree, a: seq<Op>, b: seq<Op>)
    ensures ExecAll(t, a + b) ==
              (var r := ExecAll(t, a); if r.outcome.Fail? then r else ExecAll(r.tree, b))
    decreases |a|
  {
    if a == [] {
      assert a + b == b;
    } else {
      assert (a + b)[0] == a[0];
      assert (a + b)[1..] == a[1..] + b;
      var r := Exec(t, a[0]);
      if r.outcome.Pass? {
        ExecAllAppend(r.tree, a[1..], b);
      }
    }
  }

  /** Running `a + b` in two goes: the run of `a`, then, if it passed, the
      run of `b` on the tree `a` left. */
  lemma ExecAllThen(t: Tree, a: seq<Op>, b: seq<Op>, ra: Run, rb: Run)
    requires ra == ExecAll(t, a)
    requires ra.outcome.Pass? ==> rb == ExecAll(ra.tree, b)
    ensures ExecAll(t, a + b) == if ra.outcome.Fail? then ra else rb
  {
    ExecAllAppend(t, a, b);
  }

  /** A list that reports success ran every step successfully. */
  lemma {:induction false} ExecAllPassEach(t: Tree, ops: seq<Op>, i: nat)
    requires ExecAll(t, ops).outcome.Pass? && i < |ops|
    ensures Exec(ExecAll(t, ops[..i]).tree, ops[i]).outcome.Pass?
    ensures ExecAll(t, ops[..i]).outcome.Pass?
    decreases i
  {
    var r := Exec(t, ops[0]);
    assert r.outcome.Pass?;
    if i > 0 {
      assert ops[..i][0] == ops[0] && ops[..i][1..] == ops[1..][..i - 1];
      ExecAllPassEach(r.tree, ops[1..], i - 1);
    }
  }

  /** A list of links onto paths that are new, distinct and sit in existing
      directories. */
  ghost predicate FreshLinks(t: Tree, ops: seq<Op>) {
    && (forall i :: 0 <= i < |ops| ==>
          ops[i].SymlinkOp? && ops[i].path !in t && ops[i].path != [] && DirAt(t, Parent(ops[i].path)))
    && (forall i, j :: 0 <= i < j < |ops| ==> ops[i].path != ops[j].path)
  }

  /** Such a list succeeds, creates exactly its links and changes nothing
      else. */
  lemma {:induction false} FreshLinksExec(t: Tree, ops: seq<Op>)
    requires FreshLinks(t, ops)
    ensures ExecAll(t, ops).outcome.Pass?
    ensures forall i :: 0 <= i < |ops| ==>
              ops[i].path in ExecAll(t, ops).tree && ExecAll(t, ops).tree[ops[i].path] == Link(ops[i].target)
    ensures forall p :: (forall i :: 0 <= i < |ops| ==> ops[i].path != p) ==> At(ExecAll(t, ops).tree, p) == At(t, p)
    decreases |ops|
  {
    if ops != [] {
      var op := ops[0];
      var u := t[op.path := Link(op.target)];
      assert Exec(t, op) == Run(u, Pass);
      var rest := ops[1..];
      assert forall i :: 0 <= i < |rest| ==> rest[i] == ops[i + 1];
      assert FreshLinks(u, rest) by {
        forall i | 0 <= i < |rest|
          ensures rest[i].path !in u && DirAt(u, Parent(rest[i].path))
        {
          assert ops[0].path != ops[i + 1].path;
          assert Parent(rest[i].path) != op.path;
        }
        forall i, j | 0 <= i < j < |rest| ensures rest[i].path != rest[j].path {
          assert ops[i + 1].path != ops[j + 1].path;
        }
      }
      FreshLinksExec(u, rest);
      var r := ExecAll(u, rest);
      assert ExecAll(t, ops) == r;
      forall i | 0 <= i < |ops|
        ensures ops[i].path in r.tree && r.tree[ops[i].path] == Link(ops[i].target)
      {
        if i == 0 {
          forall k | 0 <= k < |rest| ensures rest[k].path != op.path {
            assert ops[0].path != ops[k + 1].path;
          }
          assert At(r.tree, op.path) == At(u, op.path);
        } else {
          assert ops[i] == rest[i - 1];
        }
      }
      forall p | (forall i :: 0 <= i < |ops| ==> ops[i].path != p)
        ensures At(r.tree, p) == At(t, p)
      {
        assert ops[0].path != p;
        assert forall k :: 0 <= k < |rest| ==> rest[k].path != p by {
          forall k | 0 <= k < |rest| ensures rest[k].path != p {
            assert ops[k + 1].path != p;
          }
        }
      }
    }
  }
}
