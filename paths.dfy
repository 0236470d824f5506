/** Absolute paths as sequences of components, and the failure values the
    staging and the drivers report. */
module Paths {

  /** ["work", "n02", "run"] is `/work/n02/run`; [] is the root `/`. */
  type Path = seq<string>

  function Parent(p: Path): (q: Path)
    requires p != []
    ensures p == q + [p[|p| - 1]]
  {
    p[..|p| - 1]
  }

  /** `q` lies strictly below `p`. */
  predicate Below(q: Path, p: Path) {
    |q| > |p| && q[..|p|] == p
  }

  /** The path written out as the Python code writes it: `/a/b/c`. */
  function Render(p: Path): string {
    if p == [] then "" else Render(p[..|p| - 1]) + "/" + p[|p| - 1]
  }

  lemma RenderSnoc(q: Path, x: string)
    ensures Render(q + [x]) == Render(q) + "/" + x
  {
    assert (q + [x])[..|q|] == q;
  }

  /** Components as the Python code writes them: non-empty, without '/'. */
  predicate Named(p: Path) {
    forall i :: 0 <= i < |p| ==> p[i] != "" && '/' !in p[i]
  }

  /** The length of the text up to and including its last '/' (0 without
      one): `s.rfind('/') + 1`. */
  function SlashEnd(s: string): (n: nat)
    ensures n <= |s|
    ensures n > 0 ==> s[n - 1] == '/'
  {
    if s == [] then 0 else if s[|s| - 1] == '/' then |s| else SlashEnd(s[..|s| - 1])
  }

  /** `s.rstrip('/')`. */
  function TrimSlashes(s: string): (r: string)
    ensures |r| <= |s| && r == s[..|r|]
    ensures r == [] || r[|r| - 1] != '/'
  {
    if s != [] && s[|s| - 1] == '/' then TrimSlashes(s[..|s| - 1]) else s
  }

  predicate AllSlashes(s: string) {
    forall i :: 0 <= i < |s| ==> s[i] == '/'
  }

  /** `os.path.dirname`: the text up to its last '/', without trailing
      slashes unless it is nothing but slashes. */
  function DirName(s: string): (d: string)
    ensures |d| <= |s| && d == s[..|d|]
  {
    var head := s[..SlashEnd(s)];
    if head != [] && !AllSlashes(head) then TrimSlashes(head) else head
  }

  /** The text of a path with named components ends in a character other
      than '/'. */
  lemma {:induction false} RenderEnds(p: Path)
    requires Named(p) && p != []
    ensures var r := Render(p); |r| > 0 && r[|r| - 1] != '/'
  {
    var x := p[|p| - 1];
    assert Render(p) == Render(p[..|p| - 1]) + "/" + x;
    assert x != "" && '/' !in x;
    assert x[|x| - 1] in x;
  }

  /** The last '/' of `a + "/" + x` is the one before `x` when `x` has none. */
  lemma {:induction false} SlashEndBefore(a: string, x: string)
    requires '/' !in x
    ensures SlashEnd(a + "/" + x) == |a| + 1
    decreases |x|
  {
    var s := a + "/" + x;
    if x != [] {
      assert x[|x| - 1] in x;
      assert s[..|s| - 1] == a + "/" + x[..|x| - 1];
      assert forall c :: c in x[..|x| - 1] ==> c in x;
      SlashEndBefore(a, x[..|x| - 1]);
    }
  }

  /** `os.path.dirname` of the text of `a` followed by "/" and a name `x`
      (or by a trailing "/" alone) is the text of `a`, or "/" at the root. */
  lemma DirNameAfter(a: Path, x: string)
    requires Named(a) && '/' !in x
    ensures DirName(Render(a) + "/" + x) == if a == [] then "/" else Render(a)
  {
    var r := Render(a);
    var s := r + "/" + x;
    SlashEndBefore(r, x);
    var head := s[..|r| + 1];
    assert head == r + "/";
    if a == [] {
      assert AllSlashes(head);
    } else {
      RenderEnds(a);
      assert head[|r| - 1] != '/';
      assert head[..|r|] == r;
      assert TrimSlashes(head) == TrimSlashes(r);
    }
  }

  /** `os.path.dirname("/")` is "/". */
  lemma DirNameRoot()
    ensures DirName("/") == "/"
  {
    DirNameOfDir([]);
    assert Render([]) + "/" == "/";
  }

  /** `os.path.dirname` of a directory's text with its trailing '/'. */
  lemma DirNameOfDir(p: Path)
    requires Named(p)
    ensures DirName(Render(p) + "/") == if p == [] then "/" else Render(p)
  {
    DirNameAfter(p, "");
    assert Render(p) + "/" + "" == Render(p) + "/";
  }

  /** `os.path.dirname` of a path's text: its parent's text, or "/". */
  lemma DirNameOfPath(p: Path)
    requires Named(p) && p != []
    ensures DirName(Render(p)) == if |p| == 1 then "/" else Render(Parent(p))
  {
    var a := Parent(p);
    assert Render(p) == Render(a) + "/" + p[|p| - 1];
    DirNameAfter(a, p[|p| - 1]);
  }
}

module Outcomes {
  import opened Paths

  datatype Option<T> = None | Some(value: T)

  /** Every way the staging or a primitive filesystem call can fail. The
      Python code raises, asserts or exits in each case; none is retried. */
  datatype Failure =
    | Missing(path: Path)             // an input or a file to rename/remove/read is absent
    | DirectoryConflict(path: Path)   // the run directory already exists
    | AlreadyExists(path: Path)       // mkdir or symlink onto an existing name
    | NoParent(path: Path)            // the containing directory is absent
    | IsADirectory(path: Path)
    | NotADirectory(path: Path)
    | SameFile(path: Path)
    | EmptyGlob(path: Path)           // `assert(ifiles!=[])`
    | NotANamelist(path: Path)        // the patch library cannot read the file
    | NotText(path: Path)             // appending lines to a non-text file
    | HookFailed(path: Path)          // an external tool did not produce its output
    | UnknownDomainMode(kind: string) // `pdb.set_trace()` in mkmesh
    | UnknownConfigType(name: string) // `sys.exit()` in the type dispatch
    | Unbound(name: string)           // a name the dispatch never assigned (NameError)
    | BadState(path: Path)            // time.year.step does not hold `year=<n>`
    | WrongYear(year: int)            // the production driver's final check
    | TimeLimit                       // the scheduler ends a job at its wall-clock limit

  datatype Result<T> = Ok(value: T) | Err(error: Failure)

  /** The result of an operation that returns nothing. */
  datatype Outcome = Pass | Fail(error: Failure)
}
