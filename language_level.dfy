/**
 * The PHP language levels 5.2 .. 8.2 (the backed enum `LanguageLevel`),
 * their ordering through version_compare, `range` and `getMajor`.
 */
module LanguageLevel {
  import opened Wrappers
  import Versions
  import Sorting

  datatype Level =
    | PHP5_2 | PHP5_3 | PHP5_4 | PHP5_5 | PHP5_6
    | PHP7_0 | PHP7_1 | PHP7_2 | PHP7_3 | PHP7_4
    | PHP8_0 | PHP8_1 | PHP8_2

  const OLDEST: Level := PHP5_2
  const NEWEST: Level := PHP8_2

  /** The backing value of each case. */
  function Value(l: Level): string
  {
    match l
    case PHP5_2 => "5.2" case PHP5_3 => "5.3" case PHP5_4 => "5.4"
    case PHP5_5 => "5.5" case PHP5_6 => "5.6"
    case PHP7_0 => "7.0" case PHP7_1 => "7.1" case PHP7_2 => "7.2"
    case PHP7_3 => "7.3" case PHP7_4 => "7.4"
    case PHP8_0 => "8.0" case PHP8_1 => "8.1" case PHP8_2 => "8.2"
  }

  /** The name of each case, which the visitor counters use as dictionary key. */
  function Name(l: Level): string
  {
    match l
    case PHP5_2 => "PHP5_2" case PHP5_3 => "PHP5_3" case PHP5_4 => "PHP5_4"
    case PHP5_5 => "PHP5_5" case PHP5_6 => "PHP5_6"
    case PHP7_0 => "PHP7_0" case PHP7_1 => "PHP7_1" case PHP7_2 => "PHP7_2"
    case PHP7_3 => "PHP7_3" case PHP7_4 => "PHP7_4"
    case PHP8_0 => "PHP8_0" case PHP8_1 => "PHP8_1" case PHP8_2 => "PHP8_2"
  }

  /** Position of a case in declaration order. */
  function Index(l: Level): (i: nat)
    ensures i < 13
  {
    match l
    case PHP5_2 => 0 case PHP5_3 => 1 case PHP5_4 => 2 case PHP5_5 => 3 case PHP5_6 => 4
    case PHP7_0 => 5 case PHP7_1 => 6 case PHP7_2 => 7 case PHP7_3 => 8 case PHP7_4 => 9
    case PHP8_0 => 10 case PHP8_1 => 11 case PHP8_2 => 12
  }

  /** The case at a declaration position. */
  function At(i: nat): (l: Level)
    requires i < 13
    ensures Index(l) == i
  {
    [PHP5_2, PHP5_3, PHP5_4, PHP5_5, PHP5_6,
     PHP7_0, PHP7_1, PHP7_2, PHP7_3, PHP7_4,
     PHP8_0, PHP8_1, PHP8_2][i]
  }

  lemma AtIndex(l: Level)
    ensures At(Index(l)) == l
  {
  }

  /** `cases()`: every level once, in declaration order. */
  function Cases(): (r: seq<Level>)
    ensures |r| == 13
    ensures forall i :: 0 <= i < 13 ==> r[i] == At(i)
  {
    seq(13, i requires 0 <= i < 13 => At(i))
  }

  lemma ValueShape(l: Level)
    ensures |Value(l)| == 3 && Value(l)[1] == '.'
    ensures Versions.IsDigit(Value(l)[0]) && Versions.IsDigit(Value(l)[2])
    ensures Value(l) == [Value(l)[0], '.', Value(l)[2]]
  {
  }

  /** Declaration order is the order of major digit, then minor digit, of the value. */
  lemma IndexFollowsDigits(a: Level, b: Level)
    ensures Index(a) < Index(b) <==>
      Value(a)[0] < Value(b)[0] || (Value(a)[0] == Value(b)[0] && Value(a)[2] < Value(b)[2])
    ensures Index(a) == Index(b) <==> a == b
  {
  }

  /** version_compare(this->value, other->value) */
  function VersionCompare(a: Level, b: Level): int
  {
    ValueShape(a);
    ValueShape(b);
    Versions.PartsOfTwoDigits(Value(a)[0], Value(a)[2]);
    Versions.PartsOfTwoDigits(Value(b)[0], Value(b)[2]);
    Versions.Compare(Value(a), Value(b))
  }

  /** isOlderThan: version_compare(.., '<') */
  predicate IsOlderThan(a: Level, b: Level)
  {
    VersionCompare(a, b) < 0
  }

  /** isNewerThan: version_compare(.., '>') */
  predicate IsNewerThan(a: Level, b: Level)
  {
    VersionCompare(a, b) > 0
  }

  /** version_compare on the values orders the levels exactly as they are declared. */
  lemma {:induction false} CompareIsDeclarationOrder(a: Level, b: Level)
    ensures IsOlderThan(a, b) <==> Index(a) < Index(b)
    ensures IsNewerThan(a, b) <==> Index(a) > Index(b)
  {
    ValueShape(a);
    ValueShape(b);
    Versions.CompareTwoDigits(Value(a)[0], Value(a)[2], Value(b)[0], Value(b)[2]);
    IndexFollowsDigits(a, b);
    IndexFollowsDigits(b, a);
  }

  /** a.isOlderThan(b) iff b.isNewerThan(a); neither holds of a level and itself. */
  lemma Converse(a: Level, b: Level)
    ensures IsOlderThan(a, b) <==> IsNewerThan(b, a)
    ensures !IsOlderThan(a, a) && !IsNewerThan(a, a)
    ensures a != b ==> (IsOlderThan(a, b) || IsNewerThan(a, b))
  {
    CompareIsDeclarationOrder(a, b);
    CompareIsDeclarationOrder(b, a);
    CompareIsDeclarationOrder(a, a);
    IndexFollowsDigits(a, b);
  }

  /** OLDEST is older than every other level and NEWEST newer than every other. */
  lemma Extremes(l: Level)
    ensures l != OLDEST ==> IsOlderThan(OLDEST, l)
    ensures l != NEWEST ==> IsNewerThan(NEWEST, l)
  {
    CompareIsDeclarationOrder(OLDEST, l);
    CompareIsDeclarationOrder(NEWEST, l);
    IndexFollowsDigits(OLDEST, l);
    IndexFollowsDigits(NEWEST, l);
  }

  // ---------------------------------------------------------------- range

  /** The predicate handed to array_filter. */
  predicate InRange(l: Level, start: Level, end: Level)
  {
    (l == start || IsNewerThan(l, start)) && (l == end || IsOlderThan(l, end))
  }

  lemma IndexInjective(a: Level, b: Level)
    ensures Index(a) == Index(b) <==> a == b
  {
  }

  /** The filter keeps exactly the levels whose position lies between those of start and end. */
  lemma InRangeIndex(l: Level, start: Level, end: Level)
    ensures InRange(l, start, end) <==> Index(start) <= Index(l) <= Index(end)
  {
    CompareIsDeclarationOrder(l, start);
    CompareIsDeclarationOrder(l, end);
    IndexInjective(l, start);
    IndexInjective(l, end);
  }

  /** array_filter with InRange, keeping the order of xs. */
  function Filter(xs: seq<Level>, start: Level, end: Level): seq<Level>
  {
    if |xs| == 0 then []
    else (if InRange(xs[0], start, end) then [xs[0]] else []) + Filter(xs[1..], start, end)
  }

  /** The comparator handed to usort. */
  function Cmp(a: Level, b: Level): int
  {
    if a == b then 0 else if IsOlderThan(a, b) then -1 else 1
  }

  /** usort's comparator read as "comes no later than". */
  predicate NoLaterThan(a: Level, b: Level)
  {
    Cmp(a, b) <= 0
  }

  predicate Ascending(s: seq<Level>)
  {
    forall i, j :: 0 <= i < j < |s| ==> Index(s[i]) < Index(s[j])
  }

  /** usort leaves a list that is already in ascending order as it is. */
  lemma SortKeepsAscending(s: seq<Level>)
    requires Ascending(s)
    ensures Sorting.Sort(s, NoLaterThan) == s
  {
    forall i, j | 0 <= i < j < |s| ensures NoLaterThan(s[i], s[j]) {
      CompareIsDeclarationOrder(s[i], s[j]);
    }
    Sorting.SortIdentity(s, NoLaterThan);
  }

  /** The levels at positions lo .. hi, in order. */
  function Span(lo: nat, hi: int): (r: seq<Level>)
    requires hi < 13
    ensures |r| == if lo <= hi then hi - lo + 1 else 0
    ensures forall i :: 0 <= i < |r| ==> Index(r[i]) == lo + i
    decreases hi - lo
  {
    if lo > hi then [] else [At(lo)] + Span(lo + 1, hi)
  }

  lemma {:induction false} FilterCases(xs: seq<Level>, k: nat, start: Level, end: Level)
    requires k <= 13 && xs == Cases()[k..]
    ensures Filter(xs, start, end) ==
      Span(if k < Index(start) then Index(start) else k, Index(end))
    decreases 13 - k
  {
    if k < 13 {
      FilterCases(xs[1..], k + 1, start, end);
      assert xs[1..] == Cases()[k + 1..];
      assert xs[0] == At(k);
      InRangeIndex(At(k), start, end);
      assert Filter(xs, start, end) ==
        (if InRange(At(k), start, end) then [At(k)] else []) + Filter(xs[1..], start, end);
      if Index(start) <= k <= Index(end) {
        assert Span(k, Index(end)) == [At(k)] + Span(k + 1, Index(end));
      }
    }
  }

  /** The positions lo .. hi of cases() are the levels Span(lo, hi). */
  lemma SpanSlice(lo: nat, hi: int)
    requires lo <= hi + 1 && hi < 13
    ensures Span(lo, hi) == Cases()[lo..hi + 1]
  {
    var s, t := Span(lo, hi), Cases()[lo..hi + 1];
    forall k | 0 <= k < |s| ensures s[k] == t[k] {
      assert t[k] == At(lo + k);
      IndexInjective(s[k], t[k]);
    }
  }

  /** The exception range() throws when start is newer than end. */
  function RangeError(start: Level, end: Level): Exception
  {
    InvalidArgumentException(
      "First language level " + Value(start) + " is newer than second language level " + Value(end))
  }

  /**
   * range(start, end) as the enum computes it: reject a start newer than
   * end, keep the cases() that lie between the two, then usort them.
   */
  function RangeByFilter(start: Level, end: Level): Result<seq<Level>>
  {
    if IsNewerThan(start, end) then Err(RangeError(start, end))
    else Ok(Sorting.Sort(Filter(Cases(), start, end), NoLaterThan))
  }

  /**
   * range(start, end) in closed form: the stretch of cases() from start to
   * end. RangeIsFilterThenSort shows it is what RangeByFilter computes; the
   * rest of the model uses this form.
   */
  function Range(start: Level := OLDEST, end: Level := NEWEST): Result<seq<Level>>
  {
    if Index(start) > Index(end) then Err(RangeError(start, end))
    else Ok(Cases()[Index(start)..Index(end) + 1])
  }

  /** The filter keeps the stretch of cases() from start to end. */
  lemma FilterIsSlice(xs: seq<Level>, start: Level, end: Level)
    requires Index(start) <= Index(end) && xs == Cases()
    ensures Filter(xs, start, end) == xs[Index(start)..Index(end) + 1]
  {
    assert xs[0..] == xs;
    FilterCases(xs, 0, start, end);
    SpanSlice(Index(start), Index(end));
  }

  /** usort then leaves the filtered levels where they are. */
  lemma SortKeepsSlice(start: Level, end: Level)
    requires Index(start) <= Index(end)
    ensures Sorting.Sort(Cases()[Index(start)..Index(end) + 1], NoLaterThan) ==
      Cases()[Index(start)..Index(end) + 1]
  {
    SpanSlice(Index(start), Index(end));
    SortKeepsAscending(Span(Index(start), Index(end)));
  }

  /** Filtering cases() and sorting the survivors yields exactly the closed form. */
  lemma RangeIsFilterThenSort(start: Level, end: Level)
    ensures RangeByFilter(start, end) == Range(start, end)
    ensures Range(start, end).Err? <==> IsNewerThan(start, end)
  {
    CompareIsDeclarationOrder(start, end);
    if !IsNewerThan(start, end) {
      FilterIsSlice(Cases(), start, end);
      SortKeepsSlice(start, end);
    }
  }

  /** Position i of a non-empty range holds the level at position start + i. */
  lemma RangeAt(start: Level, end: Level, i: nat)
    requires Index(start) <= Index(end) && i <= Index(end) - Index(start)
    ensures Range(start, end).Ok?
    ensures |Range(start, end).value| == Index(end) - Index(start) + 1
    ensures Index(Range(start, end).value[i]) == Index(start) + i
  {
    var k := Index(start) + i;
    assert Range(start, end).value[i] == Cases()[k] == At(k);
  }

  /** Each level between start and end is in the range, and no other. */
  lemma RangeMembers(start: Level, end: Level, l: Level)
    requires Index(start) <= Index(end)
    ensures l in Range(start, end).value <==> Index(start) <= Index(l) <= Index(end)
  {
    RangeAt(start, end, 0);
    var r := Range(start, end).value;
    if Index(start) <= Index(l) <= Index(end) {
      RangeHolds(start, end, l, r);
    }
    if l in r {
      RangeOnlyHolds(start, end, l, r);
    }
  }

  /** A level between start and end is in the range. */
  lemma RangeHolds(start: Level, end: Level, l: Level, r: seq<Level>)
    requires Index(start) <= Index(l) <= Index(end) && Range(start, end) == Ok(r)
    ensures l in r
  {
    var i := Index(l) - Index(start);
    RangeAt(start, end, i);
    IndexInjective(r[i], l);
  }

  /** A level in the range lies between start and end. */
  lemma RangeOnlyHolds(start: Level, end: Level, l: Level, r: seq<Level>)
    requires Index(start) <= Index(end) && Range(start, end) == Ok(r) && l in r
    ensures Index(start) <= Index(l) <= Index(end)
  {
    var i :| 0 <= i < |r| && r[i] == l;
    RangeAt(start, end, i);
  }

  /** A range lists its levels in ascending order, each once. */
  lemma RangeAscending(start: Level, end: Level)
    requires Index(start) <= Index(end)
    ensures Ascending(Range(start, end).value)
  {
    var r := Range(start, end).value;
    forall i, j | 0 <= i < j < |r| ensures Index(r[i]) < Index(r[j]) {
      RangeAt(start, end, i);
      RangeAt(start, end, j);
    }
  }

  /** The short ranges of tests/LanguageLevelTest.php. */
  lemma RangeExamples()
    ensures Range(PHP5_2, PHP5_3) == Ok([PHP5_2, PHP5_3])
    ensures Range(PHP5_2, PHP5_4) == Ok([PHP5_2, PHP5_3, PHP5_4])
  {
    assert At(0) == PHP5_2 && At(1) == PHP5_3 && At(2) == PHP5_4;
    assert Cases()[0..2] == [At(0), At(1)];
    assert Cases()[0..3] == [At(0), At(1), At(2)];
  }

  /** range(5.2, 7.0) is the six levels 5.2 .. 7.0. */
  lemma RangeExampleUpTo70()
    ensures Range(PHP5_2, PHP7_0) == Ok([PHP5_2, PHP5_3, PHP5_4, PHP5_5, PHP5_6, PHP7_0])
  {
    assert At(0) == PHP5_2 && At(1) == PHP5_3 && At(2) == PHP5_4;
    assert At(3) == PHP5_5 && At(4) == PHP5_6 && At(5) == PHP7_0;
    assert Cases()[0..6] == [At(0), At(1), At(2), At(3), At(4), At(5)];
  }

  /** The rejected range of tests/LanguageLevelTest.php, with its message. */
  lemma RangeRejectExample()
    ensures Range(PHP5_3, PHP5_2) == Err(InvalidArgumentException(
      "First language level " + "5.3" + " is newer than second language level " + "5.2"))
  {
  }

  /** range(v, v) is [v]. */
  lemma RangeSingleton(v: Level)
    ensures Range(v, v) == Ok([v])
  {
    AtIndex(v);
    assert Cases()[Index(v)..Index(v) + 1] == [At(Index(v))];
  }

  /** range() with its default arguments lists all thirteen levels in declaration order. */
  lemma RangeAll()
    ensures Range() == Ok(Cases())
  {
    assert Cases()[0..13] == Cases();
  }

  // ---------------------------------------------------------------- getMajor

  /** getMajor: the text before the '.', cast to int. */
  function GetMajor(l: Level): int
  {
    var head := Versions.Before(Value(l), '.');
    ValueShape(l);
    assert head == Value(l)[..1];
    Versions.NatOf(head)
  }

  lemma MajorValues(l: Level)
    ensures GetMajor(l) == if Index(l) < 5 then 5 else if Index(l) < 10 then 7 else 8
  {
    ValueShape(l);
    assert Versions.Before(Value(l), '.') == [Value(l)[0]];
    assert [Value(l)[0]][..0] == [];
  }
}
