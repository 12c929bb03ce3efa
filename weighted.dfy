/**
 * The fold behind every report tuple: start from a zero tuple and add, part
 * by part, the part's tuple normalized and then scaled by the part's factor.
 * The three getTuple methods and the directory roll-up differ only in how
 * they compute the factors.
 */
module WeightedTuples {
  import opened LanguageLevel
  import opened LanguageLevelTuples

  /** One term of the fold: a tuple's values and the factor its normalized copy is scaled by. */
  datatype Part = Part(values: seq<real>, factor: real)

  predicate AllFull(parts: seq<Part>)
  {
    forall i :: 0 <= i < |parts| ==> Full(parts[i].values)
  }

  /** `$tuple = $tuple->add($values->normalize()->scale($factor))` for each part in order. */
  function WeightedSum(parts: seq<Part>): (r: seq<real>)
    requires AllFull(parts)
    ensures Full(r)
    decreases |parts|
  {
    if |parts| == 0 then Zero()
    else
      var last := parts[|parts| - 1];
      Sum(WeightedSum(parts[..|parts| - 1]), Scaled(Normalized(last.values), last.factor))
  }

  /** The sum of the factors. */
  function FactorSum(parts: seq<Part>): real
    decreases |parts|
  {
    if |parts| == 0 then 0.0 else FactorSum(parts[..|parts| - 1]) + parts[|parts| - 1].factor
  }

  /** `$total > 0 ? $count / $total : 0`: the counters' guarded share. */
  function Share(count: int, total: int): (r: real)
    ensures total <= 0 ==> r == 0.0
    ensures 0 <= count ==> 0.0 <= r
    ensures 0 <= count <= total ==> 0.0 <= r <= 1.0
    ensures 0 < total ==> r * total as real == count as real
  {
    if total > 0 then count as real / total as real else 0.0
  }

  /** No entry below 0. */
  predicate NonNegative(v: seq<real>)
  {
    forall i :: 0 <= i < |v| ==> 0.0 <= v[i]
  }

  /** Every entry between 0 and 1. */
  predicate UnitBounded(v: seq<real>)
  {
    forall i :: 0 <= i < |v| ==> 0.0 <= v[i] <= 1.0
  }

  /** Normalizing counts (no entry negative) gives entries between 0 and 1. */
  lemma NormalizedInUnit(v: seq<real>)
    requires Full(v) && NonNegative(v)
    ensures UnitBounded(Normalized(v))
  {
    var m := Largest(v);
    if m > 0.0 {
      NormalizeDividesByLargest(v);
      forall i | 0 <= i < SIZE ensures 0.0 <= Normalized(v)[i] <= 1.0 {
        var l := At(i);
        assert v[i] <= m;
        DivideByLargest(v[Index(l)], m);
      }
    } else {
      NormalizeKeepsNonPositive(v);
      forall i | 0 <= i < SIZE ensures 0.0 <= Normalized(v)[i] <= 1.0 {
        assert v[i] <= m;
      }
    }
  }

  /** Adding a scaled unit-bounded tuple to one bounded by b gives one bounded by b + f. */
  lemma AddScaledWithin(before: seq<real>, n: seq<real>, f: real, b: real)
    requires Full(before) && Full(n) && UnitBounded(n) && 0.0 <= f
    requires forall i :: 0 <= i < SIZE ==> 0.0 <= before[i] <= b
    ensures forall i :: 0 <= i < SIZE ==> 0.0 <= Sum(before, Scaled(n, f))[i] <= b + f
  {
    var added := Scaled(n, f);
    forall i | 0 <= i < SIZE ensures 0.0 <= Sum(before, added)[i] <= b + f {
      var l := At(i);
      var a := n[Index(l)];
      assert 0.0 <= a <= 1.0;
      assert 0.0 <= a * f <= f;
      assert added[Index(l)] == a * f;
      assert Sum(before, added)[Index(l)] == before[Index(l)] + added[Index(l)];
    }
  }

  /**
   * With counts for tuples and no negative factor, every entry of the sum
   * lies between 0 and the sum of the factors.
   */
  lemma {:induction false} WeightedSumBounds(parts: seq<Part>)
    requires AllFull(parts)
    requires forall i :: 0 <= i < |parts| ==> NonNegative(parts[i].values) && 0.0 <= parts[i].factor
    ensures forall i :: 0 <= i < SIZE ==> 0.0 <= WeightedSum(parts)[i] <= FactorSum(parts)
    decreases |parts|
  {
    if |parts| > 0 {
      var n := |parts| - 1;
      var last := parts[n];
      assert forall i :: 0 <= i < n ==> parts[..n][i] == parts[i];
      WeightedSumBounds(parts[..n]);
      NormalizedInUnit(last.values);
      AddScaledWithin(WeightedSum(parts[..n]), Normalized(last.values), last.factor, FactorSum(parts[..n]));
    }
  }

  /** When every factor is zero (no hits, say) the sum is the zero tuple. */
  lemma {:induction false} WeightedSumOfZeroFactors(parts: seq<Part>)
    requires AllFull(parts)
    requires forall i :: 0 <= i < |parts| ==> parts[i].factor == 0.0
    ensures WeightedSum(parts) == Zero()
    decreases |parts|
  {
    if |parts| > 0 {
      var n := |parts| - 1;
      WeightedSumOfZeroFactors(parts[..n]);
      SameEntries(WeightedSum(parts), Zero());
    }
  }

  /** A single part with factor 1 contributes exactly its normalized tuple. */
  lemma WeightedSumSingle(v: seq<real>)
    requires Full(v)
    ensures WeightedSum([Part(v, 1.0)]) == Normalized(v)
  {
    var parts := [Part(v, 1.0)];
    assert parts[..0] == [];
    var added := Scaled(Normalized(v), 1.0);
    assert WeightedSum(parts) == Sum(Zero(), added);
    forall l: Level ensures WeightedSum(parts)[Index(l)] == Normalized(v)[Index(l)] {
      assert added[Index(l)] == Normalized(v)[Index(l)] * 1.0;
    }
    SameEntries(WeightedSum(parts), Normalized(v));
  }

  /** The whole over itself is 1, or 0 when there is nothing. */
  lemma ShareOfWhole(total: int)
    ensures Share(total, total) == if total > 0 then 1.0 else 0.0
  {
  }

  /** a/t + b/t = (a + b)/t. */
  lemma AddShares(a: int, b: int, total: int)
    ensures Share(a, total) + Share(b, total) == Share(a + b, total)
  {
    if total > 0 {
      var t := total as real;
      assert a as real / t + b as real / t == (a as real + b as real) / t;
    }
  }
}
