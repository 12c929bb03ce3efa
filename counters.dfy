/**
 * What hitting a list of levels does to per-level counts, independent of
 * how the counts are stored.
 */
module Hits {
  import opened LanguageLevel

  /** How often a level occurs in a list of levels. */
  function Occurrences(ls: seq<Level>, l: Level): nat
  {
    multiset(ls)[l]
  }

  /** A list without repeats holds each of its levels once and no other. */
  lemma {:induction false} DistinctOccurrences(ls: seq<Level>, l: Level)
    requires forall i, j :: 0 <= i < j < |ls| ==> ls[i] != ls[j]
    ensures Occurrences(ls, l) == if l in ls then 1 else 0
    decreases |ls|
  {
    if |ls| > 0 {
      var last := |ls| - 1;
      DistinctOccurrences(ls[..last], l);
      assert ls == ls[..last] + [ls[last]];
      assert multiset(ls) == multiset(ls[..last]) + multiset{ls[last]};
      if l == ls[last] {
        assert l !in ls[..last];
      }
    }
  }

  /** range(s, e) holds every level from s to e once, and no other. */
  lemma RangeOccurrences(start: Level, end: Level, l: Level)
    requires Index(start) <= Index(end)
    ensures Occurrences(Range(start, end).value, l) ==
      if Index(start) <= Index(l) <= Index(end) then 1 else 0
  {
    var r := Range(start, end).value;
    RangeAscending(start, end);
    assert forall i, j :: 0 <= i < j < |r| ==> r[i] != r[j] by {
      forall i, j | 0 <= i < j < |r| ensures r[i] != r[j] {
        assert Index(r[i]) < Index(r[j]);
      }
    }
    DistinctOccurrences(r, l);
    RangeMembers(start, end, l);
  }

  /** The number of levels range(s, e) holds. */
  lemma RangeLength(start: Level, end: Level)
    requires Index(start) <= Index(end)
    ensures |Range(start, end).value| == Index(end) - Index(start) + 1
  {
    RangeAt(start, end, 0);
  }
}

/**
 * Data\LanguageLevelCounter: a LanguageLevelTuple of hit counts, raised
 * in place by `hit` and `hitRange`.
 */
module DataCounter {
  import opened Wrappers
  import opened PhpValues
  import opened LanguageLevel
  import opened LanguageLevelTuples
  import opened Hits

  /** The values after hitting each level of ls in turn. */
  function HitValues(v: seq<real>, ls: seq<Level>): (r: seq<real>)
    requires Full(v)
    ensures Full(r)
    decreases |ls|
  {
    if |ls| == 0 then v
    else
      var before := HitValues(v, ls[..|ls| - 1]);
      var i := Index(ls[|ls| - 1]);
      before[i := before[i] + 1.0]
  }

  /** Hitting a list raises each level by the number of times it occurs there, and nothing else. */
  lemma {:induction false} HitValuesCount(v: seq<real>, ls: seq<Level>, l: Level)
    requires Full(v)
    ensures HitValues(v, ls)[Index(l)] == v[Index(l)] + Occurrences(ls, l) as real
    decreases |ls|
  {
    if |ls| > 0 {
      var last := |ls| - 1;
      HitValuesCount(v, ls[..last], l);
      assert ls == ls[..last] + [ls[last]];
      assert multiset(ls) == multiset(ls[..last]) + multiset{ls[last]};
      IndexInjective(l, ls[last]);
    }
  }

  /** hitRange(s, e) raises every level from s to e by exactly 1 and leaves the others. */
  lemma HitRangeValues(v: seq<real>, start: Level, end: Level, l: Level)
    requires Full(v) && Index(start) <= Index(end)
    ensures HitValues(v, Range(start, end).value)[Index(l)] ==
      v[Index(l)] + if Index(start) <= Index(l) <= Index(end) then 1.0 else 0.0
  {
    HitValuesCount(v, Range(start, end).value, l);
    RangeOccurrences(start, end, l);
  }

  class LanguageLevelCounter {
    var tuple: LanguageLevelTuple

    ghost predicate Valid()
      reads this, tuple
    {
      tuple.Valid()
    }

    /** A new counter: a fresh tuple, zero at every level. */
    constructor()
      ensures Valid() && fresh(tuple) && tuple.values == Zero()
    {
      tuple := new LanguageLevelTuple();
    }

    /** reset: replaces the tuple by a fresh zero tuple. */
    method Reset()
      modifies this
      ensures Valid() && fresh(tuple) && tuple.values == Zero()
    {
      tuple := new LanguageLevelTuple();
    }

    /** hit: `$tuple[$level] + 1` written back into the tuple. */
    method Hit(l: Level)
      requires Valid()
      modifies tuple
      ensures Valid() && tuple.key == old(tuple.key)
      ensures tuple.values == HitValues(old(tuple.values), [l])
    {
      var count := tuple.Get(Lvl(l));
      var r := tuple.Set(Lvl(l), Float(count.value + 1.0));
      assert [l][..0] == [];
    }

    /**
     * hitRange: hits each level of range(start, end) in turn. A null end
     * is refused by range's non-nullable parameter, and a start newer than
     * end makes range throw, both before any change.
     */
    method HitRange(start: Level, end: Option<Level>) returns (r: Outcome)
      requires Valid()
      modifies tuple
      ensures Valid() && tuple.key == old(tuple.key)
      ensures end.None? ==> r == Fail(TypeError) && tuple.values == old(tuple.values)
      ensures end.Some? && Index(start) > Index(end.value) ==>
        r == Fail(RangeError(start, end.value)) && tuple.values == old(tuple.values)
      ensures end.Some? && Index(start) <= Index(end.value) ==>
        r == Pass && tuple.values == HitValues(old(tuple.values), Range(start, end.value).value)
    {
      if end.None? {
        return Fail(TypeError);
      }
      var range := Range(start, end.value);
      if range.Err? {
        return Fail(range.error);
      }
      var levels := range.value;
      for k := 0 to |levels|
        invariant Valid() && tuple.key == old(tuple.key)
        invariant tuple.values == HitValues(old(tuple.values), levels[..k])
      {
        Hit(levels[k]);
        assert levels[..k + 1][..k] == levels[..k];
      }
      assert levels[..|levels|] == levels;
      r := Pass;
    }

    /** get: the current count of a level. */
    function Get(l: Level): (c: real)
      reads this, tuple
      requires Valid()
      ensures c == tuple.values[Index(l)]
    {
      tuple.Get(Lvl(l)).value
    }

    /** getTuple: the counter's own tuple, which later hits keep updating. */
    function GetTuple(): (t: LanguageLevelTuple)
      reads this
      ensures t == tuple
    {
      tuple
    }
  }

  /**
   * getTuple hands out the counter's own tuple: a hit after the call shows
   * in the tuple already handed out.
   */
  method TupleSeesLaterHits(c: LanguageLevelCounter, l: Level) returns (t: LanguageLevelTuple)
    requires c.Valid()
    modifies c.tuple
    ensures t == c.tuple && t.Valid()
    ensures t.values[Index(l)] == old(c.tuple.values[Index(l)]) + 1.0
  {
    t := c.GetTuple();
    c.Hit(l);
    HitValuesCount(old(c.tuple.values), [l], l);
    assert multiset([l])[l] == 1;
  }
}

/**
 * Visitors\LanguageLevelCounter: counts keyed by level name, plus the
 * running total of hits.
 */
module VisitorCounter {
  import opened Wrappers
  import opened LanguageLevel
  import opened Hits

  lemma NameInjective(a: Level, b: Level)
    ensures Name(a) == Name(b) <==> a == b
  {
  }

  /** Every level's name is a key. */
  predicate Covers(m: map<string, int>)
  {
    forall l: Level :: Name(l) in m
  }

  /** The level names, the keys reset writes. */
  function LevelNames(): set<string>
  {
    {"PHP5_2", "PHP5_3", "PHP5_4", "PHP5_5", "PHP5_6", "PHP7_0", "PHP7_1",
     "PHP7_2", "PHP7_3", "PHP7_4", "PHP8_0", "PHP8_1", "PHP8_2"}
  }

  /** The level names are exactly the names of the levels. */
  lemma LevelNamesAreNames(x: string)
    ensures x in LevelNames() <==> exists l: Level :: Name(l) == x
  {
    if x in LevelNames() {
      var i := if x == "PHP5_2" then 0 else if x == "PHP5_3" then 1 else if x == "PHP5_4" then 2
        else if x == "PHP5_5" then 3 else if x == "PHP5_6" then 4 else if x == "PHP7_0" then 5
        else if x == "PHP7_1" then 6 else if x == "PHP7_2" then 7 else if x == "PHP7_3" then 8
        else if x == "PHP7_4" then 9 else if x == "PHP8_0" then 10 else if x == "PHP8_1" then 11 else 12;
      assert Name(At(i)) == x;
    }
  }

  /** The sum of the counts of the levels at positions i and later. */
  function TotalFrom(m: map<string, int>, i: nat): int
    requires Covers(m) && i <= 13
    decreases 13 - i
  {
    if i == 13 then 0 else m[Name(At(i))] + TotalFrom(m, i + 1)
  }

  /** The sum of all level counts. */
  function Total(m: map<string, int>): int
    requires Covers(m)
  {
    TotalFrom(m, 0)
  }

  /** One more for one level's count adds one to the total. */
  lemma {:induction false} TotalAfterHit(m: map<string, int>, l: Level, i: nat)
    requires Covers(m) && i <= 13
    ensures Covers(m[Name(l) := m[Name(l)] + 1])
    ensures TotalFrom(m[Name(l) := m[Name(l)] + 1], i) == TotalFrom(m, i) + if i <= Index(l) then 1 else 0
    decreases 13 - i
  {
    if i < 13 {
      TotalAfterHit(m, l, i + 1);
      NameInjective(At(i), l);
    }
  }

  /** The counts after reset's loop has reached position i: the names before i set to zero. */
  function ZeroedUpTo(m: map<string, int>, i: nat): map<string, int>
    requires i <= 13
    decreases i
  {
    if i == 0 then m else ZeroedUpTo(m, i - 1)[Name(At(i - 1)) := 0]
  }

  /** The counts after hitting each level of ls in turn; a missing count starts from null, which `++` makes 1. */
  function HitCounts(m: map<string, int>, ls: seq<Level>): map<string, int>
    decreases |ls|
  {
    if |ls| == 0 then m
    else
      var before := HitCounts(m, ls[..|ls| - 1]);
      var name := Name(ls[|ls| - 1]);
      before[name := (if name in before then before[name] else 0) + 1]
  }

  /** One hit raises one count and the total by one. */
  lemma HitOnce(m: map<string, int>, l: Level)
    requires Covers(m)
    ensures HitCounts(m, [l]) == m[Name(l) := m[Name(l)] + 1]
    ensures Covers(HitCounts(m, [l])) && Total(HitCounts(m, [l])) == Total(m) + 1
  {
    assert [l][..0] == [];
    TotalAfterHit(m, l, 0);
  }

  /** Hitting a list raises each level's count by the number of times it occurs there. */
  lemma {:induction false} HitCountsCount(m: map<string, int>, ls: seq<Level>, l: Level)
    requires Covers(m)
    ensures Covers(HitCounts(m, ls)) && HitCounts(m, ls).Keys == m.Keys
    ensures HitCounts(m, ls)[Name(l)] == m[Name(l)] + Occurrences(ls, l)
    decreases |ls|
  {
    if |ls| > 0 {
      var last := |ls| - 1;
      HitCountsCount(m, ls[..last], l);
      assert ls == ls[..last] + [ls[last]];
      assert multiset(ls) == multiset(ls[..last]) + multiset{ls[last]};
      NameInjective(l, ls[last]);
    }
  }

  /** hitRange(s, e) raises the count of every level from s to e by exactly 1 and leaves the others. */
  lemma HitRangeCounts(m: map<string, int>, start: Level, end: Level, l: Level)
    requires Covers(m) && Index(start) <= Index(end)
    ensures Name(l) in HitCounts(m, Range(start, end).value)
    ensures HitCounts(m, Range(start, end).value)[Name(l)] ==
      m[Name(l)] + if Index(start) <= Index(l) <= Index(end) then 1 else 0
  {
    HitCountsCount(m, Range(start, end).value, l);
    RangeOccurrences(start, end, l);
  }

  class LanguageLevelCounter {
    /** `$counters`, keyed by level name. */
    var counters: map<string, int>
    /** `$hits`. */
    var hits: int

    /** Every level has a count and hits is their sum. */
    ghost predicate Valid()
      reads this
    {
      Covers(counters) && counters.Keys == LevelNames() && hits == Total(counters)
    }

    /** A new counter: no hits, every level at zero. */
    constructor()
      ensures Valid() && hits == 0
      ensures forall l: Level :: counters[Name(l)] == 0
    {
      counters := map[];
      hits := 0;
      new;
      Reset();
    }

    /** reset: hits to 0 and each level's count to 0. */
    method Reset()
      requires counters.Keys <= LevelNames()
      modifies this
      ensures Valid() && hits == 0
      ensures counters == ZeroedUpTo(old(counters), 13)
      ensures forall l: Level :: counters[Name(l)] == 0
    {
      hits := 0;
      ghost var start := counters;
      for i := 0 to 13
        invariant hits == 0
        invariant counters == ZeroedUpTo(start, i)
        invariant counters.Keys <= LevelNames()
        invariant forall j :: 0 <= j < i ==> Name(At(j)) in counters && counters[Name(At(j))] == 0
      {
        LevelNamesAreNames(Name(At(i)));
        counters := counters[Name(At(i)) := 0];
      }
      assert forall l: Level :: Name(l) in counters && counters[Name(l)] == 0 by {
        forall l: Level ensures Name(l) in counters && counters[Name(l)] == 0 {
          AtIndex(l);
        }
      }
      assert LevelNames() <= counters.Keys by {
        forall x | x in LevelNames() ensures x in counters {
          LevelNamesAreNames(x);
        }
      }
      ZeroTotal(counters, 0);
    }

    /** hit: one more for the level, and one more hit. */
    method Hit(l: Level)
      requires Valid()
      modifies this
      ensures Valid()
      ensures counters == HitCounts(old(counters), [l]) && hits == old(hits) + 1
      ensures counters.Keys == old(counters).Keys
    {
      HitOnce(counters, l);
      ghost var keys := counters.Keys;
      counters := counters[Name(l) := counters[Name(l)] + 1];
      assert counters.Keys == keys;
      hits := hits + 1;
    }

    /** hitRange's loop: hits each level of the list in turn. */
    method HitEach(levels: seq<Level>)
      requires Valid()
      modifies this
      ensures Valid()
      ensures counters == HitCounts(old(counters), levels) && hits == old(hits) + |levels|
    {
      for k := 0 to |levels|
        invariant counters.Keys == old(counters).Keys
        invariant Valid()
        invariant counters == HitCounts(old(counters), levels[..k]) && hits == old(hits) + k
      {
        Hit(levels[k]);
        assert levels[..k + 1][..k] == levels[..k];
      }
      assert levels[..|levels|] == levels;
    }

    /**
     * hitRange: hits each level of range(start, end) in turn, which adds
     * the length of the range to hits. A null end and a start newer than
     * end fail before any change.
     */
    method HitRange(start: Level, end: Option<Level>) returns (r: Outcome)
      requires Valid()
      modifies this
      ensures Valid()
      ensures end.None? ==> r == Fail(TypeError) && counters == old(counters) && hits == old(hits)
      ensures end.Some? && Index(start) > Index(end.value) ==>
        r == Fail(RangeError(start, end.value)) && counters == old(counters) && hits == old(hits)
      ensures end.Some? && Index(start) <= Index(end.value) ==>
        r == Pass && counters == HitCounts(old(counters), Range(start, end.value).value) &&
        hits == old(hits) + Index(end.value) - Index(start) + 1
    {
      if end.None? {
        return Fail(TypeError);
      }
      var range := Range(start, end.value);
      if range.Err? {
        return Fail(range.error);
      }
      RangeLength(start, end.value);
      HitEach(range.value);
      r := Pass;
    }

    /** get: the count of a level. */
    function Get(l: Level): (c: int)
      reads this
      requires Valid()
      ensures c == counters[Name(l)]
    {
      counters[Name(l)]
    }

    /** getAll: every count, keyed by level name, and nothing else. */
    function GetAll(): (m: map<string, int>)
      reads this
      requires Valid()
      ensures m.Keys == LevelNames()
      ensures forall l: Level :: Name(l) in m && m[Name(l)] == Get(l)
    {
      counters
    }

    /** getHits: the running total, which is the sum of all counts. */
    function GetHits(): (h: int)
      reads this
      requires Valid()
      ensures h == Total(counters)
    {
      hits
    }
  }

  /** Counts that are all zero sum to zero. */
  lemma {:induction false} ZeroTotal(m: map<string, int>, i: nat)
    requires Covers(m) && i <= 13
    requires forall l: Level :: m[Name(l)] == 0
    ensures TotalFrom(m, i) == 0
    decreases 13 - i
  {
    if i < 13 {
      ZeroTotal(m, i + 1);
    }
  }
}
