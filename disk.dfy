/** The filesystem as the staging process sees it: the tree it mutates and
    the working directory `os.chdir` moves. Every primitive call updates the
    tree in place as the corresponding step of `Ops` says. */
module Disk {
  import opened Paths
  import opened Outcomes
  import opened Fs
  import opened Ops

  class FileSystem {
    var tree: Tree
    var cwd: Path

    ghost predicate Valid()
      reads this
    {
      WellFormed(tree)
    }

    constructor (t: Tree, home: Path)
      requires WellFormed(t)
      ensures tree == t && cwd == home && Valid()
    {
      tree := t;
      cwd := home;
    }

    /** One primitive call. */
    method Perform(op: Op) returns (o: Outcome)
      requires Valid() && Primitive(op)
      modifies this
      ensures Run(tree, o) == Exec(old(tree), op)
      ensures cwd == old(cwd) && Valid()
    {
      ExecKeeps(tree, op);
      var r := Exec(tree, op);
      tree := r.tree;
      o := r.outcome;
    }

    /** One primitive call made as the first of the steps still to do: on
        failure the list ends here, on success what is left is the rest. */
    method Step(op: Op, ghost rest: seq<Op>) returns (o: Outcome)
      requires Valid() && Primitive(op) && rest != [] && rest[0] == op
      modifies this
      ensures o.Fail? ==> Run(tree, o) == ExecAll(old(tree), rest)
      ensures o.Pass? ==> ExecAll(tree, rest[1..]) == ExecAll(old(tree), rest)
      ensures cwd == old(cwd) && Valid()
    {
      o := Perform(op);
    }

    /** A shell command whose exit status the script ignores: whatever it
        did stays, and the script goes on. */
    method StepUnchecked(op: Op, ghost rest: seq<Op>)
      requires Valid() && Primitive(op) && rest != [] && rest[0] == Unchecked(op)
      modifies this
      ensures ExecAll(tree, rest[1..]) == ExecAll(old(tree), rest)
      ensures cwd == old(cwd) && Valid()
    {
      var o := Perform(op);
    }

    /** `os.chdir(p)` and `cd p`: fails unless p is a directory, following a
        link to one. */
    method Chdir(p: Path) returns (o: Outcome)
      modifies this
      ensures o.Pass? <==> IsDir(old(tree), p)
      ensures tree == old(tree)
      ensures cwd == if o.Pass? then Resolve(old(tree), p) else old(cwd)
    {
      if IsDir(tree, p) {
        cwd := Resolve(tree, p);
        o := Pass;
      } else {
        o := Fail(NotADirectory(p));
      }
    }

    /** The template copy: list `src` in sorted order, insist that the list
        is not empty, and copy each entry that is a regular file (following
        links) into `dst` under its own name. A failing copy raises and
        keeps the copies made before it. */
    method CopyTemplate(src: Path, dst: Path) returns (o: Outcome)
      requires Valid()
      modifies this
      ensures Run(tree, o) == CopyFlat(old(tree), src, dst)
      ensures Run(tree, o) == ExecAll(old(tree), [CopyFlatOp(src, dst)])
      ensures cwd == old(cwd) && Valid()
    {
      ExecCopyFlat(tree, src, dst);
      var names := Glob(tree, src);
      if names == [] {
        o := Fail(EmptyGlob(src));
        return;
      }
      var i := 0;
      assert names[0..] == names;
      while i < |names|
        invariant 0 <= i <= |names|
        invariant Valid() && cwd == old(cwd)
        invariant CopyEach(tree, src, dst, names[i..]) == CopyEach(old(tree), src, dst, names)
      {
        var n := names[i];
        ghost var before := tree;
        assert names[i..][0] == n && names[i..][1..] == names[i + 1..];
        assert CopyEach(before, src, dst, names[i..]) ==
                 (var r := CopyOne(before, src, dst, n);
                  if r.outcome.Fail? then r else CopyEach(r.tree, src, dst, names[i + 1..]));
        if IsFile(tree, src + [n]) {
          o := Perform(CopyOp(src + [n], dst + [n]));
          CopyOneIsCopy(before, src, dst, n);
          if o.Fail? {
            return;
          }
        }
        i := i + 1;
      }
      assert names[i..] == [];
      o := Pass;
    }
  }
}
