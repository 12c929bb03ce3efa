/**
 * PHP's version_compare restricted to dotted numeric version strings such as
 * "5.2": the parts are compared numerically from left to right, and when one
 * string runs out of parts first it is the older one.
 */
module Versions {
  predicate IsDigit(c: char) { '0' <= c <= '9' }

  predicate AllDigits(s: string) { forall i :: 0 <= i < |s| ==> IsDigit(s[i]) }

  /** The decimal value of a digit string (PHP's (int) cast of such a string). */
  function NatOf(s: string): nat
    requires AllDigits(s)
  {
    if |s| == 0 then 0 else 10 * NatOf(s[..|s| - 1]) + (s[|s| - 1] as int - '0' as int)
  }

  /** The text before the first '.', or the whole string when it has none. */
  function Before(s: string, sep: char): (r: string)
    ensures |r| <= |s| && r == s[..|r|]
    ensures sep !in r
    ensures |r| < |s| ==> s[|r|] == sep
  {
    if |s| == 0 || s[0] == sep then [] else [s[0]] + Before(s[1..], sep)
  }

  /** The parts of a version string, split at every '.'. */
  function Parts(s: string): (r: seq<string>)
    ensures |r| >= 1
    decreases |s|
  {
    var head := Before(s, '.');
    if |head| == |s| then [s] else [head] + Parts(s[|head| + 1..])
  }

  predicate NumericVersion(s: string)
  {
    forall p :: p in Parts(s) ==> AllDigits(p)
  }

  /** Compares two part lists numerically: -1, 0 or 1. */
  function CompareParts(a: seq<string>, b: seq<string>): (r: int)
    requires forall p :: p in a ==> AllDigits(p)
    requires forall p :: p in b ==> AllDigits(p)
    ensures -1 <= r <= 1
  {
    if |a| == 0 && |b| == 0 then 0
    else if |a| == 0 then -1
    else if |b| == 0 then 1
    else if NatOf(a[0]) < NatOf(b[0]) then -1
    else if NatOf(a[0]) > NatOf(b[0]) then 1
    else CompareParts(a[1..], b[1..])
  }

  /** version_compare(a, b): -1 when a is older, 0 when equal, 1 when newer. */
  function Compare(a: string, b: string): int
    requires NumericVersion(a) && NumericVersion(b)
  {
    CompareParts(Parts(a), Parts(b))
  }

  /** The parts of the two-digit version "M.m". */
  lemma PartsOfTwoDigits(major: char, minor: char)
    requires IsDigit(major) && IsDigit(minor)
    ensures Parts([major, '.', minor]) == [[major], [minor]]
    ensures NumericVersion([major, '.', minor])
  {
    var s := [major, '.', minor];
    assert Before(s, '.') == [major] by {
      assert Before(s[1..], '.') == [];
    }
    assert s[2..] == [minor];
    assert Before([minor], '.') == [minor] by {
      assert [minor][1..] == [];
    }
  }

  /** Comparing two "M.m" versions compares the major digits, then the minor ones. */
  lemma CompareTwoDigits(a1: char, a2: char, b1: char, b2: char)
    requires IsDigit(a1) && IsDigit(a2) && IsDigit(b1) && IsDigit(b2)
    ensures NumericVersion([a1, '.', a2]) && NumericVersion([b1, '.', b2])
    ensures Compare([a1, '.', a2], [b1, '.', b2]) ==
        if a1 < b1 then -1 else if a1 > b1 then 1
        else if a2 < b2 then -1 else if a2 > b2 then 1 else 0
  {
    PartsOfTwoDigits(a1, a2);
    PartsOfTwoDigits(b1, b2);
    assert NatOf([a1]) == a1 as int - '0' as int by { assert [a1][..0] == []; }
    assert NatOf([a2]) == a2 as int - '0' as int by { assert [a2][..0] == []; }
    assert NatOf([b1]) == b1 as int - '0' as int by { assert [b1][..0] == []; }
    assert NatOf([b2]) == b2 as int - '0' as int by { assert [b2][..0] == []; }
    var pa, pb := [[a1], [a2]], [[b1], [b2]];
    assert pa[1..] == [[a2]] && pb[1..] == [[b2]];
    assert [[a2]][1..] == [] && [[b2]][1..] == [];
    assert CompareParts(pa[1..], pb[1..]) ==
      if a2 < b2 then -1 else if a2 > b2 then 1 else 0;
    assert Compare([a1, '.', a2], [b1, '.', b2]) == CompareParts(pa, pb);
  }
}
