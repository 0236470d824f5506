/** Fortran namelist documents and the patch operation the staging applies to
    them (the `f90nml.patch` library call and the `f90nml --patch` command).
    The library itself is not part of this model; its contract is taken as a
    deep merge: a patch names groups and parameters, the named leaves take the
    patch's values, every other leaf is kept and unknown names are added. */
module Namelist {

  /** A scalar namelist value. Floating-point literals are carried as text:
      nothing computes with them. */
  datatype Value = Int(i: int) | Real(literal: string) | Bool(b: bool) | Str(s: string)

  type Group = map<string, Value>

  /** group name -> (parameter name -> value) */
  type Doc = map<string, Group>

  /** A patch has the same shape: the groups and parameters to override. */
  type Patch = map<string, Group>

  function Apply(d: Doc, p: Patch): (r: Doc)
    ensures r.Keys == d.Keys + p.Keys
    // every leaf the patch names takes the patch's value
    ensures forall g, k :: g in p && k in p[g] ==> k in r[g] && r[g][k] == p[g][k]
    // every leaf the patch does not name is preserved
    ensures forall g, k :: g in d && k in d[g] && !(g in p && k in p[g]) ==> k in r[g] && r[g][k] == d[g][k]
    // and no other leaf appears
    ensures forall g, k :: g in r && k in r[g] ==> (g in p && k in p[g]) || (g in d && k in d[g])
  {
    map g | g in d.Keys + p.Keys ::
      if g in p && g in d then d[g] + p[g]
      else if g in p then p[g]
      else d[g]
  }

  /** Applying the same patch twice gives what applying it once gives. */
  lemma ApplyIdempotent(d: Doc, p: Patch)
    ensures Apply(Apply(d, p), p) == Apply(d, p)
  {
    var once := Apply(d, p);
    var twice := Apply(once, p);
    forall g | g in twice ensures twice[g] == once[g] {
      assert twice[g].Keys == once[g].Keys;
    }
  }

  /** Patching with the empty patch leaves the document as it is. */
  lemma ApplyEmpty(d: Doc)
    ensures Apply(d, map[]) == d
  {
    var r := Apply(d, map[]);
    forall g | g in r ensures r[g] == d[g] {
      assert r[g].Keys == d[g].Keys;
    }
  }

  /** Two patches in a row are one patch: the second merged into the first. */
  lemma ApplyCompose(d: Doc, p: Patch, q: Patch)
    ensures Apply(Apply(d, p), q) == Apply(d, Apply(p, q))
  {
    var dp, pq := Apply(d, p), Apply(p, q);
    var lhs, rhs := Apply(dp, q), Apply(d, pq);
    forall g | g in lhs ensures lhs[g] == rhs[g] {
      if g in d && g in p && g in q {
        assert lhs[g] == (d[g] + p[g]) + q[g];
        assert rhs[g] == d[g] + (p[g] + q[g]);
        GroupUnionAssoc(d[g], p[g], q[g]);
      } else if g in d && g in q {
        assert lhs[g] == d[g] + q[g] == rhs[g];
      } else if g in p && g in q {
        assert lhs[g] == p[g] + q[g] == rhs[g];
      } else if g in q {
        assert lhs[g] == q[g] == rhs[g];
      } else {
        assert lhs[g] == dp[g] == rhs[g];
      }
    }
  }

  lemma GroupUnionAssoc(a: Group, b: Group, c: Group)
    ensures (a + b) + c == a + (b + c)
  {
    var l, r := (a + b) + c, a + (b + c);
    assert l.Keys == r.Keys;
    forall k | k in l ensures l[k] == r[k] { }
  }

  /** Patching a whole group replaces nothing outside the groups it names. */
  lemma ApplyOtherGroupsUntouched(d: Doc, p: Patch, g: string)
    requires g in d && g !in p
    ensures Apply(d, p)[g] == d[g]
  {
    assert Apply(d, p)[g].Keys == d[g].Keys;
  }

  /** `-g namtrd -v ln_dyn_trd=True`: the patch the production driver applies
      when it turns on the momentum trend diagnostics. */
  function DynTrdPatch(): (p: Patch)
    ensures p.Keys == {"namtrd"} && p["namtrd"] == map["ln_dyn_trd" := Bool(true)]
  {
    map["namtrd" := map["ln_dyn_trd" := Bool(true)]]
  }
}
