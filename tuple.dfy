/**
 * LanguageLevelTuple: one number per language level, kept in range()
 * order. `add`, `scale` and `normalize` build fresh tuples; `offsetSet`
 * writes one entry in place; the Iterator methods move a position over
 * the levels in declaration order.
 */
module LanguageLevelTuples {
  import opened Wrappers
  import opened PhpValues
  import opened LanguageLevel

  /** The number of levels, and so of entries. */
  const SIZE: nat := 13

  /** Entry i of a tuple's values belongs to the level at declaration position i. */
  predicate Full(v: seq<real>)
  {
    |v| == SIZE
  }

  /** The constructor's values: every level at zero. */
  function Zero(): (z: seq<real>)
    ensures Full(z)
    ensures forall l: Level :: z[Index(l)] == 0.0
  {
    seq(SIZE, i => 0.0)
  }

  /** `$this[$level] + $other[$level]` at every level. */
  function Sum(a: seq<real>, b: seq<real>): (r: seq<real>)
    requires Full(a) && Full(b)
    ensures Full(r)
    ensures forall l: Level :: r[Index(l)] == a[Index(l)] + b[Index(l)]
  {
    seq(SIZE, i requires 0 <= i < SIZE => a[i] + b[i])
  }

  /** `$this[$level] * $factor` at every level. */
  function Scaled(a: seq<real>, factor: real): (r: seq<real>)
    requires Full(a)
    ensures Full(r)
    ensures forall l: Level :: r[Index(l)] == a[Index(l)] * factor
  {
    seq(SIZE, i requires 0 <= i < SIZE => a[i] * factor)
  }

  /** PHP's max() on two numbers. */
  function Max(a: real, b: real): real
  {
    if b > a then b else a
  }

  /**
   * array_reduce with max, from the running value acc: the result is at
   * least acc and every entry, and is acc or one of the entries.
   */
  function LargestFrom(acc: real, v: seq<real>): (r: real)
    ensures r >= acc
    ensures forall i :: 0 <= i < |v| ==> v[i] <= r
    ensures r == acc || exists i :: 0 <= i < |v| && v[i] == r
    decreases |v|
  {
    if |v| == 0 then acc
    else
      var r := LargestFrom(Max(acc, v[0]), v[1..]);
      assert forall i :: 1 <= i < |v| ==> v[i] == v[1..][i - 1];
      assert r != Max(acc, v[0]) ==> exists i :: 1 <= i < |v| && v[i] == r by {
        if r != Max(acc, v[0]) {
          var k :| 0 <= k < |v[1..]| && v[1..][k] == r;
          assert v[k + 1] == r;
        }
      }
      r
  }

  /** normalize's `$max`: the largest entry, or 0 when none is positive. */
  function Largest(v: seq<real>): real
  {
    LargestFrom(0.0, v)
  }

  /** normalize: divide by the largest entry when it is positive, otherwise an equal copy. */
  function Normalized(v: seq<real>): seq<real>
    requires Full(v)
  {
    var m := Largest(v);
    if m > 0.0 then Scaled(v, 1.0 / m) else Scaled(v, 1.0)
  }

  lemma DivideByLargest(x: real, m: real)
    requires 0.0 < m && x <= m
    ensures x * (1.0 / m) == x / m && x / m <= 1.0
    ensures x == m ==> x / m == 1.0
  {
  }

  /** The largest entry of a list whose entries are at most 1 and one of which is 1. */
  lemma LargestIsOne(n: seq<real>, k: int)
    requires 0 <= k < |n| && n[k] == 1.0
    requires forall i :: 0 <= i < |n| ==> n[i] <= 1.0
    ensures Largest(n) == 1.0
  {
  }

  /** One entry of a normalized tuple whose largest entry is positive. */
  lemma NormalizedEntry(v: seq<real>, i: int)
    requires Full(v) && Largest(v) > 0.0 && 0 <= i < SIZE
    ensures Normalized(v)[i] == v[i] / Largest(v) && Normalized(v)[i] <= 1.0
    ensures v[i] == Largest(v) ==> Normalized(v)[i] == 1.0
  {
    var m := Largest(v);
    var n := Scaled(v, 1.0 / m);
    assert Normalized(v) == n;
    assert n[i] == v[i] * (1.0 / m);
    DivideByLargest(v[i], m);
  }

  /**
   * When some entry is positive, normalize divides every entry by the
   * largest one, so the largest entry of the result is exactly 1.
   */
  lemma NormalizeDividesByLargest(v: seq<real>)
    requires Full(v) && Largest(v) > 0.0
    ensures forall l: Level :: Normalized(v)[Index(l)] == v[Index(l)] / Largest(v)
    ensures Largest(Normalized(v)) == 1.0
  {
    var n := Normalized(v);
    forall l: Level ensures n[Index(l)] == v[Index(l)] / Largest(v) {
      NormalizedEntry(v, Index(l));
    }
    forall i | 0 <= i < SIZE ensures n[i] <= 1.0 {
      NormalizedEntry(v, i);
    }
    var k :| 0 <= k < |v| && v[k] == Largest(v);
    NormalizedEntry(v, k);
    LargestIsOne(n, k);
  }

  /** When no entry is positive (all zero, say), normalize returns an equal copy. */
  lemma NormalizeKeepsNonPositive(v: seq<real>)
    requires Full(v) && Largest(v) <= 0.0
    ensures Normalized(v) == v
  {
    var n := Normalized(v);
    forall i | 0 <= i < SIZE ensures n[i] == v[i] {
      assert n[i] == n[Index(At(i))];
    }
  }

  /** The zero tuple normalizes to itself. */
  lemma NormalizeZero()
    ensures Largest(Zero()) == 0.0 && Normalized(Zero()) == Zero()
  {
    var z := Zero();
    assert forall i :: 0 <= i < SIZE ==> z[i] == z[Index(At(i))] == 0.0;
    NormalizeKeepsNonPositive(z);
  }

  /** offsetGet's `$this->values[...]` for a value the tuple holds: ints and floats as numbers. */
  function Number(v: Value): real
    requires v.Int? || v.Float?
  {
    if v.Int? then v.i as real else v.f
  }

  /** getKey: only a case of the LanguageLevel enum is an offset. */
  function KeyOf(offset: Value): (r: Result<Level>)
    ensures r.Ok? <==> offset.Lvl?
    ensures r.Ok? ==> r.value == offset.level
    ensures r.Err? ==> r.error == OutOfBoundsException
  {
    if offset.Lvl? then Ok(offset.level) else Err(OutOfBoundsException)
  }

  class LanguageLevelTuple {
    /** `$values`, in range() order. */
    var values: seq<real>
    /** `$key`, the Iterator position. */
    var key: int

    ghost predicate Valid()
      reads this
    {
      Full(values)
    }

    /** A new tuple: one zero entry per level, the position at the start. */
    constructor()
      ensures Valid() && values == Zero() && key == 0
    {
      values := Zero();
      key := 0;
    }

    /** offsetExists: every level has an entry. */
    function Exists(offset: Value): (r: Result<bool>)
      reads this
      requires Valid()
      ensures r.Ok? <==> offset.Lvl?
      ensures r.Ok? ==> r.value
    {
      var k := KeyOf(offset);
      if k.Err? then Err(k.error) else Ok(true)
    }

    /** offsetGet: the entry of the level. */
    function Get(offset: Value): (r: Result<real>)
      reads this
      requires Valid()
      ensures offset.Lvl? ==> r == Ok(values[Index(offset.level)])
      ensures !offset.Lvl? ==> r == Err(OutOfBoundsException)
    {
      var k := KeyOf(offset);
      if k.Err? then Err(k.error) else Ok(values[Index(k.value)])
    }

    /**
     * offsetSet: a value that is neither int nor float is refused first,
     * then an offset that is not a level; otherwise that one entry is
     * written.
     */
    method Set(offset: Value, value: Value) returns (r: Outcome)
      requires Valid()
      modifies this
      ensures Valid() && key == old(key)
      ensures !(value.Int? || value.Float?) ==> r == Fail(DomainException) && values == old(values)
      ensures (value.Int? || value.Float?) && !offset.Lvl? ==> r == Fail(OutOfBoundsException) && values == old(values)
      ensures (value.Int? || value.Float?) && offset.Lvl? ==>
        r == Pass && values == old(values)[Index(offset.level) := Number(value)]
    {
      if !(value.Int? || value.Float?) {
        return Fail(DomainException);
      }
      var k := KeyOf(offset);
      if k.Err? {
        return Fail(k.error);
      }
      values := values[Index(k.value) := Number(value)];
      r := Pass;
    }

    /** offsetUnset: never supported. */
    method Unset(offset: Value) returns (r: Outcome)
      ensures r == Fail(BadMethodCallException)
    {
      r := Fail(BadMethodCallException);
    }

    /** add: a fresh tuple holding the entry-wise sum; neither operand changes. */
    method Add(other: LanguageLevelTuple) returns (t: LanguageLevelTuple)
      requires Valid() && other.Valid()
      ensures fresh(t) && t.Valid() && t.key == 0
      ensures t.values == Sum(values, other.values)
    {
      t := new LanguageLevelTuple();
      for i := 0 to SIZE
        invariant t.Valid() && t.key == 0 && fresh(t)
        invariant forall j :: 0 <= j < i ==> t.values[j] == values[j] + other.values[j]
        invariant forall j :: i <= j < SIZE ==> t.values[j] == 0.0
      {
        var r := t.Set(Lvl(At(i)), Float(values[i] + other.values[i]));
      }
      SameEntries(t.values, Sum(values, other.values));
    }

    /** scale: a fresh tuple with every entry multiplied by the factor. */
    method Scale(factor: real) returns (t: LanguageLevelTuple)
      requires Valid()
      ensures fresh(t) && t.Valid() && t.key == 0
      ensures t.values == Scaled(values, factor)
    {
      t := new LanguageLevelTuple();
      for i := 0 to SIZE
        invariant t.Valid() && t.key == 0 && fresh(t)
        invariant forall j :: 0 <= j < i ==> t.values[j] == values[j] * factor
        invariant forall j :: i <= j < SIZE ==> t.values[j] == 0.0
      {
        var r := t.Set(Lvl(At(i)), Float(values[i] * factor));
      }
      SameEntries(t.values, Scaled(values, factor));
    }

    /** normalize: scale by 1 / max when the largest entry is positive, by 1 otherwise. */
    method Normalize() returns (t: LanguageLevelTuple)
      requires Valid()
      ensures fresh(t) && t.Valid() && t.key == 0
      ensures t.values == Normalized(values)
    {
      var m := Largest(values);
      if m > 0.0 {
        t := Scale(1.0 / m);
      } else {
        t := Scale(1.0);
      }
    }

    /** valid: the position is at a level. */
    function HasCurrent(): (r: bool)
      reads this
      ensures r <==> 0 <= key < SIZE
    {
      0 <= key < SIZE
    }

    /** current: the entry at the position; past the end the missing case is not a level. */
    function Current(): (r: Result<real>)
      reads this
      requires Valid()
      ensures HasCurrent() ==> r == Ok(values[key])
      ensures !HasCurrent() ==> r == Err(OutOfBoundsException)
    {
      if HasCurrent() then Ok(values[key]) else Err(OutOfBoundsException)
    }

    /** key: the level at the position, or null past the end. */
    function Key(): (r: Value)
      reads this
      ensures HasCurrent() ==> r == Lvl(At(key))
      ensures !HasCurrent() ==> r == Null
    {
      if HasCurrent() then Lvl(At(key)) else Null
    }

    method Next()
      modifies this
      ensures key == old(key) + 1 && values == old(values)
    {
      key := key + 1;
    }

    method Rewind()
      modifies this
      ensures key == 0 && values == old(values)
    {
      key := 0;
    }

    /**
     * `foreach ($this as $level => $value)`: rewind, then read key and
     * current and advance while valid. It yields each level once, in
     * declaration order, with its entry.
     */
    method Pairs() returns (ps: seq<(Level, real)>)
      requires Valid()
      modifies this
      ensures Valid() && values == old(values) && key == SIZE
      ensures |ps| == SIZE
      ensures forall i :: 0 <= i < SIZE ==> ps[i] == (At(i), values[i])
    {
      Rewind();
      ps := [];
      while HasCurrent()
        invariant Valid() && values == old(values)
        invariant 0 <= key <= SIZE && |ps| == key
        invariant forall i :: 0 <= i < key ==> ps[i] == (At(i), values[i])
        decreases SIZE - key
      {
        var k := Key();
        var v := Current();
        ps := ps + [(k.level, v.value)];
        Next();
      }
    }
  }

  /** Two full value lists that agree at every position are equal. */
  lemma SameEntries(a: seq<real>, b: seq<real>)
    requires Full(a) && Full(b)
    requires forall l: Level :: a[Index(l)] == b[Index(l)]
    ensures a == b
  {
    forall i | 0 <= i < SIZE ensures a[i] == b[i] {
      assert a[Index(At(i))] == b[Index(At(i))];
    }
  }
}
