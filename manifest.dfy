/** `rPARAMS.py`, the parameter file `main` writes into the run directory
    for the drivers' Python helpers to import: a docstring, one
    `name='value'` line per run parameter, and an import guard. */
module Manifest {
  import opened Paths
  import opened Outcomes
  import opened Text
  import opened Setup

  /** `name + "='" + value + "'"`: every parameter is stored as a quoted string. */
  function Assignment(name: string, value: string): string {
    name + "='" + value + "'"
  }

  /** The parameters in the order `main` writes them. No name is assigned
      twice, so importing the file binds every name to its one value. */
  function Parameters(q: Request): (ps: seq<(string, string)>)
    ensures |ps| == 12
    ensures forall i, j :: 0 <= i < j < |ps| ==> ps[i].0 != ps[j].0
  {
    [("rP_OCEANCORES", Dec(OceanCores(q))),
     ("rP_STOCKDIR", StockDir),
     ("rP_WORKDIR", WorkdirText(q)),
     ("rP_RBUILD_NEMO", RebuildTool),
     ("rP_MKPSI", PsiTool),
     ("rP_PROJ", Project),
     ("rP_CONFIG", q.config),
     ("rP_CASE", q.caseId),
     ("rP_DESC", q.desc),
     ("rP_NDAYS", Dec(Days)),
     ("rP_YEAR0", Dec(q.year0)),
     ("rP_YEAR_MAX", Dec(q.yearMax))]
  }

  function Assignments(ps: seq<(string, string)>): (ls: seq<string>)
    ensures |ls| == |ps|
    ensures forall i :: 0 <= i < |ps| ==> ls[i] == Assignment(ps[i].0, ps[i].1)
  {
    if ps == [] then [] else [Assignment(ps[0].0, ps[0].1)] + Assignments(ps[1..])
  }

  const Header: seq<string> := ["", "\"\"\"", "This is the script that captures all the key run parameters and is imported by GoGoNEMO.py", "\"\"\"", ""]
  const Footer: seq<string> := ["", "if __name__ == '__main__':", "    print('This script is designed to be imported...')"]

  /** The lines of `rPARAMS.py`, each without its '\n'. */
  function ManifestLines(q: Request): (ls: seq<string>)
    ensures |ls| == |Header| + 12 + |Footer|
    ensures ls[..|Header|] == Header && ls[|Header| + 12..] == Footer
    ensures forall i :: 0 <= i < 12 ==>
              ls[|Header| + i] == Assignment(Parameters(q)[i].0, Parameters(q)[i].1)
  {
    Header + Assignments(Parameters(q)) + Footer
  }

  /** The first position of `c` in `s`, if any. */
  function IndexOf(s: string, c: char): (r: Option<nat>)
    ensures r.Some? ==> r.value < |s| && s[r.value] == c && c !in s[..r.value]
    ensures r.None? ==> c !in s
  {
    if s == [] then None
    else if s[0] == c then Some(0)
    else
      var r := IndexOf(s[1..], c);
      if r.None? then None
      else
        assert s[..r.value + 1] == [s[0]] + s[1..][..r.value];
        Some(r.value + 1)
  }

  /** Reading a manifest line back: the name is everything before the first
      '=', the value everything between the quotes that follow it and end
      the line. */
  function ParseAssignment(line: string): Option<(string, string)> {
    var eq := IndexOf(line, '=');
    if eq.None? then None
    else
      var k := eq.value;
      if k + 2 <= |line| && line[k + 1] == '\'' && line[|line| - 1] == '\'' && k + 2 <= |line| - 1
      then Some((line[..k], line[k + 2..|line| - 1]))
      else None
  }

  /** Reading a line back gives the parameter it was written from, whatever
      the value holds, as long as the name has no '='. */
  lemma ParseAssignmentInverse(name: string, value: string)
    requires '=' !in name
    ensures ParseAssignment(Assignment(name, value)) == Some((name, value))
  {
    var line := Assignment(name, value);
    assert line[..|name|] == name && line[|name|] == '=';
    assert line[|name| + 1] == '\'' && line[|line| - 1] == '\'';
    assert line[|name| + 2..|line| - 1] == value;
    IndexOfFirst(line, '=', |name|);
  }

  lemma {:induction false} IndexOfFirst(s: string, c: char, k: nat)
    requires k < |s| && s[k] == c && c !in s[..k]
    ensures IndexOf(s, c) == Some(k)
  {
    if k > 0 {
      assert s[0] in s[..k];
      assert s[1..][..k - 1] == s[1..k];
      assert forall x :: x in s[1..k] ==> x in s[..k];
      IndexOfFirst(s[1..], c, k - 1);
    }
  }

  /** Every parameter line of the manifest reads back as that parameter. */
  lemma ManifestReadsBack(q: Request, i: nat)
    requires i < 12
    ensures ParseAssignment(ManifestLines(q)[|Header| + i]) == Some(Parameters(q)[i])
  {
    var ps := Parameters(q);
    assert forall k :: 0 <= k < 12 ==> '=' !in ps[k].0;
    ParseAssignmentInverse(ps[i].0, ps[i].1);
  }

  /** The parameter lines of the run directory `asf_c75_00008` (lines 6, 8,
      16 and 17 of its `rPARAMS.py`): the ASF core count, the run directory
      under `RDIR`, and the years as quoted strings. */
  lemma AsfC75Manifest(q: Request)
    requires q.config == "asf_c75" && q.caseId == "00008" && q.configType == "ASF"
    requires q.year0 == 1 && q.yearMax == 100
    ensures ManifestLines(q)[5] == Assignment("rP_OCEANCORES", "1024")
    ensures ManifestLines(q)[7] == Assignment("rP_WORKDIR", "/work/n02/n02/chbull/nemo/run/asf_c75_00008")
    ensures ManifestLines(q)[15] == Assignment("rP_YEAR0", "1")
    ensures ManifestLines(q)[16] == Assignment("rP_YEAR_MAX", "100")
  {
    var ps := Parameters(q);
    assert Dec(1024) == "1024" by {
      assert Dec(1) == "1" && Dec(10) == Dec(1) + "0" && Dec(102) == Dec(10) + "2";
    }
    assert Dec(100) == "100" by {
      assert Dec(1) == "1" && Dec(10) == Dec(1) + "0";
    }
    assert WorkdirText(q) == "/work/n02/n02/chbull/nemo/run/asf_c75_00008";
    assert ps[0] == ("rP_OCEANCORES", "1024") && ps[2] == ("rP_WORKDIR", "/work/n02/n02/chbull/nemo/run/asf_c75_00008");
    assert ps[10] == ("rP_YEAR0", "1") && ps[11] == ("rP_YEAR_MAX", "100");
  }
}
