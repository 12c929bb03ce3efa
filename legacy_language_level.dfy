/**
 * The older level enum `Knevelina\Modernity\LanguageLevel`: the same thirteen
 * backed cases with getMajor, isOlderThan and isNewerThan, and no range.
 */
module LegacyLanguageLevel {
  import Versions
  import Current = LanguageLevel

  datatype Level =
    | PHP5_2 | PHP5_3 | PHP5_4 | PHP5_5 | PHP5_6
    | PHP7_0 | PHP7_1 | PHP7_2 | PHP7_3 | PHP7_4
    | PHP8_0 | PHP8_1 | PHP8_2

  function Value(l: Level): string
  {
    match l
    case PHP5_2 => "5.2" case PHP5_3 => "5.3" case PHP5_4 => "5.4"
    case PHP5_5 => "5.5" case PHP5_6 => "5.6"
    case PHP7_0 => "7.0" case PHP7_1 => "7.1" case PHP7_2 => "7.2"
    case PHP7_3 => "7.3" case PHP7_4 => "7.4"
    case PHP8_0 => "8.0" case PHP8_1 => "8.1" case PHP8_2 => "8.2"
  }

  /** Position of a case in declaration order. */
  function Index(l: Level): nat
  {
    match l
    case PHP5_2 => 0 case PHP5_3 => 1 case PHP5_4 => 2 case PHP5_5 => 3 case PHP5_6 => 4
    case PHP7_0 => 5 case PHP7_1 => 6 case PHP7_2 => 7 case PHP7_3 => 8 case PHP7_4 => 9
    case PHP8_0 => 10 case PHP8_1 => 11 case PHP8_2 => 12
  }

  /** The case of the newer enum with the same backing value. */
  function ToCurrent(l: Level): Current.Level
  {
    match l
    case PHP5_2 => Current.PHP5_2 case PHP5_3 => Current.PHP5_3 case PHP5_4 => Current.PHP5_4
    case PHP5_5 => Current.PHP5_5 case PHP5_6 => Current.PHP5_6
    case PHP7_0 => Current.PHP7_0 case PHP7_1 => Current.PHP7_1 case PHP7_2 => Current.PHP7_2
    case PHP7_3 => Current.PHP7_3 case PHP7_4 => Current.PHP7_4
    case PHP8_0 => Current.PHP8_0 case PHP8_1 => Current.PHP8_1 case PHP8_2 => Current.PHP8_2
  }

  /** The two enums have the same cases, with the same values, in the same order. */
  lemma SameCases(l: Level, m: Level)
    ensures Current.Value(ToCurrent(l)) == Value(l)
    ensures Current.Index(ToCurrent(l)) == Index(l)
    ensures ToCurrent(l) == ToCurrent(m) ==> l == m
    ensures ToCurrent(l) == Current.At(Index(l))
  {
  }

  /** isOlderThan: version_compare(.., '<') on the values. */
  predicate IsOlderThan(a: Level, b: Level)
  {
    Current.ValueShape(ToCurrent(a));
    Current.ValueShape(ToCurrent(b));
    SameCases(a, b);
    SameCases(b, a);
    Versions.PartsOfTwoDigits(Value(a)[0], Value(a)[2]);
    Versions.PartsOfTwoDigits(Value(b)[0], Value(b)[2]);
    Versions.Compare(Value(a), Value(b)) < 0
  }

  /** isNewerThan: version_compare(.., '>') on the values. */
  predicate IsNewerThan(a: Level, b: Level)
  {
    Current.ValueShape(ToCurrent(a));
    Current.ValueShape(ToCurrent(b));
    SameCases(a, b);
    SameCases(b, a);
    Versions.PartsOfTwoDigits(Value(a)[0], Value(a)[2]);
    Versions.PartsOfTwoDigits(Value(b)[0], Value(b)[2]);
    Versions.Compare(Value(a), Value(b)) > 0
  }

  /** The older enum orders its cases by declaration, like the newer one. */
  lemma {:induction false} OrderIsDeclaration(a: Level, b: Level)
    ensures IsOlderThan(a, b) <==> Index(a) < Index(b)
    ensures IsNewerThan(a, b) <==> Index(a) > Index(b)
    ensures IsOlderThan(a, b) <==> Current.IsOlderThan(ToCurrent(a), ToCurrent(b))
  {
    SameCases(a, b);
    SameCases(b, a);
    Current.CompareIsDeclarationOrder(ToCurrent(a), ToCurrent(b));
  }

  /** isOlderThan and isNewerThan are strict converses: irreflexive, and swapped by swapping arguments. */
  lemma Converse(a: Level, b: Level)
    ensures IsOlderThan(a, b) <==> IsNewerThan(b, a)
    ensures !IsOlderThan(a, a) && !IsNewerThan(a, a)
  {
    OrderIsDeclaration(a, b);
    OrderIsDeclaration(b, a);
    OrderIsDeclaration(a, a);
  }

  /** getMajor: the text before the '.', cast to int. */
  function GetMajor(l: Level): int
  {
    Current.ValueShape(ToCurrent(l));
    SameCases(l, l);
    var head := Versions.Before(Value(l), '.');
    assert head == Value(l)[..1];
    Versions.NatOf(head)
  }

  lemma MajorValues(l: Level)
    ensures GetMajor(l) == if Index(l) < 5 then 5 else if Index(l) < 10 then 7 else 8
    ensures GetMajor(l) == Current.GetMajor(ToCurrent(l))
  {
    SameCases(l, l);
    Current.MajorValues(ToCurrent(l));
  }
}
