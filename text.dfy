/** Decimal rendering, Python's str.zfill and the string slicing the staging
    uses to build file names. */
module Text {

  predicate IsDigit(c: char) { '0' <= c <= '9' }

  predicate AllDigits(s: string) { forall i :: 0 <= i < |s| ==> IsDigit(s[i]) }

  function DigitChar(d: nat): (c: char)
    requires d < 10
    ensures IsDigit(c) && c as int - '0' as int == d
  {
    ('0' as int + d) as char
  }

  /** `str(n)` for a non-negative integer: decimal digits, no leading zero. */
  function Dec(n: nat): (s: string)
    ensures |s| >= 1 && AllDigits(s)
    ensures n >= 10 ==> s[0] != '0'
    ensures n < 10 ==> |s| == 1
  {
    if n < 10 then [DigitChar(n)] else Dec(n / 10) + [DigitChar(n % 10)]
  }

  /** The number a string of decimal digits denotes (leading zeros allowed). */
  function DigitsValue(s: string): nat
    requires AllDigits(s)
  {
    if s == [] then 0
    else DigitsValue(s[..|s| - 1]) * 10 + (s[|s| - 1] as int - '0' as int)
  }

  /** `s` with '0' prepended until it is at least `width` long. */
  function ZeroPad(s: string, width: int): (r: string)
    ensures |r| == if |s| >= width then |s| else width
    decreases width - |s|
  {
    if |s| >= width then s else ZeroPad("0" + s, width)
  }

  /** Python's `s.zfill(width)`: pad on the left with '0' up to `width`,
      keeping a leading sign in front of the padding. */
  function ZFill(s: string, width: int): (r: string)
    ensures |r| == if |s| >= width then |s| else width
  {
    if |s| >= width then s
    else if |s| > 0 && (s[0] == '+' || s[0] == '-') then [s[0]] + ZeroPad(s[1..], width - 1)
    else ZeroPad(s, width)
  }

  /** Python's `s[:-3]`: everything but the last three characters, or the
      empty string when `s` is shorter. */
  function DropLast3(s: string): (r: string)
    ensures |s| >= 3 ==> |r| == |s| - 3 && s == r + s[|s| - 3..]
    ensures |s| < 3 ==> r == ""
  {
    if |s| >= 3 then s[..|s| - 3] else ""
  }

  lemma DropLast3Concat(a: string, b: string)
    requires |b| >= 3
    ensures DropLast3(a + b) == a + DropLast3(b)
  {
    assert (a + b)[..|a + b| - 3] == a + b[..|b| - 3];
  }

  lemma {:induction false} DecValue(n: nat)
    ensures DigitsValue(Dec(n)) == n
  {
    if n >= 10 {
      var s := Dec(n);
      assert s[..|s| - 1] == Dec(n / 10);
      DecValue(n / 10);
    }
  }

  /** A digit string without a leading zero, unless it is "0" itself: the
      form `str(n)` produces. */
  predicate Canonical(s: string) {
    |s| >= 1 && AllDigits(s) && (|s| == 1 || s[0] != '0')
  }

  /** Conversely, such a string is the rendering of the number it denotes. */
  lemma {:induction false} DecOfDigits(s: string)
    requires Canonical(s)
    ensures Dec(DigitsValue(s)) == s
    decreases |s|
  {
    if |s| > 1 {
      var p := s[..|s| - 1];
      assert p[0] == s[0];
      DecOfDigits(p);
      LeadingDigitValue(p);
      var n, c := DigitsValue(s), s[|s| - 1] as int - '0' as int;
      assert n == DigitsValue(p) * 10 + c && 0 <= c < 10;
      assert n / 10 == DigitsValue(p) && n % 10 == c && n >= 10;
      assert s == p + [s[|s| - 1]];
    } else {
      assert s == [s[0]];
      assert DigitsValue(s) == s[0] as int - '0' as int by { assert s[..0] == []; }
    }
  }

  lemma {:induction false} LeadingDigitValue(s: string)
    requires |s| >= 1 && AllDigits(s) && s[0] != '0'
    ensures DigitsValue(s) >= 1
    decreases |s|
  {
    if |s| > 1 {
      var p := s[..|s| - 1];
      assert p[0] == s[0];
      LeadingDigitValue(p);
    } else {
      assert s[..0] == [];
    }
  }

  /** A leading zero does not change the value of a digit string. */
  lemma {:induction false} LeadingZeroValue(s: string)
    requires AllDigits(s)
    ensures AllDigits("0" + s) && DigitsValue("0" + s) == DigitsValue(s)
    decreases |s|
  {
    var t := "0" + s;
    if s != [] {
      var s' := s[..|s| - 1];
      assert t[..|t| - 1] == "0" + s';
      assert t[|t| - 1] == s[|s| - 1];
      LeadingZeroValue(s');
    } else {
      assert t[..|t| - 1] == [];
    }
  }

  lemma {:induction false} ZeroPadValue(s: string, width: int)
    requires AllDigits(s)
    ensures AllDigits(ZeroPad(s, width)) && DigitsValue(ZeroPad(s, width)) == DigitsValue(s)
    decreases width - |s|
  {
    if |s| < width {
      LeadingZeroValue(s);
      ZeroPadValue("0" + s, width);
    }
  }

  /** Zero-padding a decimal number keeps the number it denotes. */
  lemma ZFillDecValue(n: nat, width: int)
    ensures AllDigits(ZFill(Dec(n), width)) && DigitsValue(ZFill(Dec(n), width)) == n
  {
    var s := Dec(n);
    DecValue(n);
    assert ZFill(s, width) == ZeroPad(s, width);
    ZeroPadValue(s, width);
  }

  /** Zero-padded decimal years are pairwise distinct: `zfill` on `str(y)`
      never maps two different numbers to the same text. */
  lemma ZFillDecInjective(a: nat, b: nat, width: int)
    requires ZFill(Dec(a), width) == ZFill(Dec(b), width)
    ensures a == b
  {
    ZFillDecValue(a, width);
    ZFillDecValue(b, width);
  }

  lemma {:induction false} DecLength(n: nat, k: nat)
    requires n < Pow10(k) && k >= 1
    ensures |Dec(n)| <= k
  {
    if n >= 10 {
      DecLength(n / 10, k - 1);
    }
  }

  function Pow10(k: nat): (p: nat)
    ensures p >= 1
  {
    if k == 0 then 1 else 10 * Pow10(k - 1)
  }

  /** A year below 10000 renders as exactly four characters after `zfill(4)`. */
  lemma FourDigitYear(y: nat)
    requires y < 10000
    ensures |ZFill(Dec(y), 4)| == 4
  {
    assert Pow10(4) == 10000;
    DecLength(y, 4);
  }

  /** Python's `<` on str: code point by code point, a proper prefix first. */
  predicate Less(a: string, b: string) {
    if a == [] then b != []
    else if b == [] then false
    else if a[0] != b[0] then a[0] < b[0]
    else Less(a[1..], b[1..])
  }

  lemma {:induction false} LessIrreflexive(a: string)
    ensures !Less(a, a)
  {
    if a != [] {
      LessIrreflexive(a[1..]);
    }
  }

  lemma {:induction false} LessTransitive(a: string, b: string, c: string)
    requires Less(a, b) && Less(b, c)
    ensures Less(a, c)
  {
    if a != [] && a[0] == b[0] && b[0] == c[0] {
      LessTransitive(a[1..], b[1..], c[1..]);
    }
  }

  lemma {:induction false} LessTotal(a: string, b: string)
    ensures a == b || Less(a, b) || Less(b, a)
  {
    if a != [] && b != [] && a[0] == b[0] {
      LessTotal(a[1..], b[1..]);
      if a[1..] == b[1..] {
        assert a == [a[0]] + a[1..] && b == [b[0]] + b[1..];
      }
    }
  }

  lemma {:induction false} LessAsymmetric(a: string, b: string)
    requires Less(a, b)
    ensures !Less(b, a)
  {
    if Less(b, a) {
      LessTransitive(a, b, a);
      LessIrreflexive(a);
    }
  }

  predicate IsLeast(m: string, s: set<string>) {
    m in s && forall x :: x in s ==> m == x || Less(m, x)
  }

  lemma LeastExists(s: set<string>)
    requires s != {}
    ensures exists m :: IsLeast(m, s)
    decreases |s|
  {
    var y :| y in s;
    if s == {y} {
      assert IsLeast(y, s);
    } else {
      LeastExists(s - {y});
      var m :| IsLeast(m, s - {y});
      LessTotal(m, y);
      if Less(y, m) {
        forall x | x in s ensures y == x || Less(y, x) {
          if x != y && x != m {
            LessTransitive(y, m, x);
          }
        }
        assert IsLeast(y, s);
      } else {
        assert IsLeast(m, s);
      }
    }
  }

  lemma LeastUnique(m: string, n: string, s: set<string>)
    requires IsLeast(m, s) && IsLeast(n, s)
    ensures m == n
  {
    if m != n {
      LessAsymmetric(m, n);
    }
  }

  /** The least string of a non-empty set. */
  function Least(s: set<string>): (m: string)
    requires s != {}
    ensures IsLeast(m, s)
  {
    LeastExists(s);
    assert forall m, n :: IsLeast(m, s) && IsLeast(n, s) ==> m == n by {
      forall m, n | IsLeast(m, s) && IsLeast(n, s) ensures m == n {
        LeastUnique(m, n, s);
      }
    }
    var m :| IsLeast(m, s);
    m
  }

  predicate StrictlySorted(r: seq<string>) {
    forall i, j :: 0 <= i < j < |r| ==> Less(r[i], r[j])
  }

  /** Python's `sorted` on a set of names. */
  function Sorted(s: set<string>): (r: seq<string>)
    ensures |r| == |s|
    ensures forall x :: x in r <==> x in s
    ensures StrictlySorted(r)
    decreases |s|
  {
    if s == {} then []
    else
      var m := Least(s);
      var rest := Sorted(s - {m});
      assert forall j :: 0 <= j < |rest| ==> Less(m, rest[j]) by {
        forall j | 0 <= j < |rest| ensures Less(m, rest[j]) {
          assert rest[j] in s - {m};
        }
      }
      [m] + rest
  }

  /** Strictly sorted names are pairwise distinct. */
  lemma SortedDistinct(r: seq<string>, i: int, j: int)
    requires StrictlySorted(r) && 0 <= i < |r| && 0 <= j < |r| && i != j
    ensures r[i] != r[j]
  {
    if i < j {
      if r[i] == r[j] { LessIrreflexive(r[i]); }
    } else {
      if r[i] == r[j] { LessIrreflexive(r[i]); }
    }
  }
}
