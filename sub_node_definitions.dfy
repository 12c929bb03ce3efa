/**
 * What a sub node slot may hold: the newer SubNode\SubNodeDefinition, which
 * normalises its class-name list (adds 'null' when nullable, sorts,
 * removes duplicates), and the older NodeInformation\SubNodeDefinition,
 * which keeps the list as given and derives whether null is allowed.
 */
module SubNodeDefinitions {
  import opened Sorting

  /** The pseudo class names for scalars and null. */
  const NULL: string := "null"
  const INT: string := "int"
  const FLOAT: string := "float"
  const STRING: string := "string"

  /** The `array|string` class-name argument. */
  datatype ClassNames = One(name: string) | Many(names: seq<string>)

  /** `is_array($classNames) ? $classNames : [$classNames]`. */
  function AsList(c: ClassNames): seq<string>
  {
    match c
    case One(name) => [name]
    case Many(names) => names
  }

  /**
   * `<=` between two strings that are not numeric, as PHP's sort compares
   * them: byte by byte, a proper prefix first.
   */
  predicate StrLe(a: string, b: string)
  {
    |a| == 0 || (|b| > 0 && (a[0] < b[0] || (a[0] == b[0] && StrLe(a[1..], b[1..]))))
  }

  lemma {:induction false} StrLeTotalAt(a: string, b: string)
    ensures StrLe(a, b) || StrLe(b, a)
  {
    if |a| > 0 && |b| > 0 && a[0] == b[0] {
      StrLeTotalAt(a[1..], b[1..]);
    }
  }

  lemma {:induction false} StrLeTransitiveAt(a: string, b: string, c: string)
    requires StrLe(a, b) && StrLe(b, c)
    ensures StrLe(a, c)
  {
    if |a| > 0 && a[0] == b[0] && b[0] == c[0] {
      StrLeTransitiveAt(a[1..], b[1..], c[1..]);
    }
  }

  lemma {:induction false} StrLeAntisymmetricAt(a: string, b: string)
    requires StrLe(a, b) && StrLe(b, a)
    ensures a == b
  {
    if |a| > 0 {
      StrLeAntisymmetricAt(a[1..], b[1..]);
      assert a == [a[0]] + a[1..] && b == [b[0]] + b[1..];
    }
  }

  /** The string order is a total preorder, as Sort needs. */
  lemma StrLeOrders()
    ensures Total(StrLe) && Transitive(StrLe)
  {
    forall a, b ensures StrLe(a, b) || StrLe(b, a) {
      StrLeTotalAt(a, b);
    }
    forall a, b, c | StrLe(a, b) && StrLe(b, c) ensures StrLe(a, c) {
      StrLeTransitiveAt(a, b, c);
    }
  }

  /** The newer definition: normalised class names, the array flag and the nullable flag. */
  datatype Definition = Definition(classNames: seq<string>, isArray: bool, nullable: bool)

  predicate DuplicateFree(s: seq<string>)
  {
    forall i, j :: 0 <= i < j < |s| ==> s[i] != s[j]
  }

  /**
   * The constructor: the given names plus 'null' when nullable, sorted,
   * without duplicates; both flags kept unchanged.
   */
  function Make(names: ClassNames, isArray: bool, nullable: bool): (d: Definition)
    ensures d.isArray == isArray && d.nullable == nullable
    ensures forall x :: x in d.classNames <==> x in AsList(names) || (nullable && x == NULL)
    ensures SortedBy(d.classNames, StrLe) && DuplicateFree(d.classNames)
  {
    var listed := AsList(names) + (if nullable then [NULL] else []);
    var sorted := Sort(listed, StrLe);
    SortPermutes(listed, StrLe);
    StrLeOrders();
    SortSorted(listed, StrLe);
    UniqueSorted(sorted, StrLe);
    assert forall x :: x in sorted <==> x in multiset(listed);
    Definition(Unique(sorted), isArray, nullable)
  }

  /** accepts: in_array against the class names; none of them is numeric, so this is equality. */
  predicate Accepts(d: Definition, className: string)
  {
    className in d.classNames
  }

  /** A slot accepts exactly the names it was given, and null when nullable. */
  lemma AcceptsGiven(names: ClassNames, isArray: bool, nullable: bool, className: string)
    ensures Accepts(Make(names, isArray, nullable), className) <==>
      className in AsList(names) || (nullable && className == NULL)
    ensures nullable ==> Accepts(Make(names, isArray, nullable), NULL)
    ensures Accepts(Make(One(className), isArray, nullable), className)
  {
  }

  /** The first element of a sorted list comes no later than any of its elements. */
  lemma HeadFirst(s: seq<string>, x: string)
    requires SortedBy(s, StrLe) && x in s
    ensures StrLe(s[0], x)
  {
    var k :| 0 <= k < |s| && s[k] == x;
    if k == 0 {
      StrLeTotalAt(x, x);
    }
  }

  /** Dropping the equal heads of two lists with the same names keeps the same names. */
  lemma SameTails(s: seq<string>, t: seq<string>)
    requires |s| > 0 && |t| > 0 && s[0] == t[0] && DuplicateFree(s) && DuplicateFree(t)
    requires forall x :: x in s <==> x in t
    ensures forall x :: x in s[1..] <==> x in t[1..]
  {
    forall x | x in s[1..] ensures x in t[1..] {
      var k :| 0 <= k < |s[1..]| && s[1..][k] == x;
      assert s[k + 1] == x && x != s[0] && x in s;
      var m :| 0 <= m < |t| && t[m] == x;
      assert t[1..][m - 1] == x;
    }
    forall x | x in t[1..] ensures x in s[1..] {
      var k :| 0 <= k < |t[1..]| && t[1..][k] == x;
      assert t[k + 1] == x && x != t[0] && x in t;
      var m :| 0 <= m < |s| && s[m] == x;
      assert s[1..][m - 1] == x;
    }
  }

  /** Two sorted duplicate-free lists holding the same names are the same list. */
  lemma {:induction false} SortedSetUnique(s: seq<string>, t: seq<string>)
    requires SortedBy(s, StrLe) && DuplicateFree(s) && SortedBy(t, StrLe) && DuplicateFree(t)
    requires forall x :: x in s <==> x in t
    ensures s == t
  {
    if |s| > 0 {
      assert s[0] in s;
    }
    if |t| > 0 {
      assert t[0] in t;
    }
    if |s| > 0 && |t| > 0 {
      assert s[0] in t && t[0] in s;
      HeadFirst(t, s[0]);
      HeadFirst(s, t[0]);
      StrLeAntisymmetricAt(s[0], t[0]);
      SameTails(s, t);
      assert SortedBy(s[1..], StrLe) && SortedBy(t[1..], StrLe) by {
        forall i, j | 0 <= i < j < |s[1..]| ensures StrLe(s[1..][i], s[1..][j]) {
          assert s[1..][i] == s[i + 1] && s[1..][j] == s[j + 1];
        }
        forall i, j | 0 <= i < j < |t[1..]| ensures StrLe(t[1..][i], t[1..][j]) {
          assert t[1..][i] == t[i + 1] && t[1..][j] == t[j + 1];
        }
      }
      SortedSetUnique(s[1..], t[1..]);
      assert s == [s[0]] + s[1..] && t == [t[0]] + t[1..];
    }
  }

  /**
   * The normalisation forgets order and repetition: two constructions with
   * the same names (and the same flags) build the same definition, and
   * building again from a definition's own names changes nothing.
   */
  lemma MakeIsCanonical(a: ClassNames, b: ClassNames, isArray: bool, nullable: bool)
    requires forall x :: x in AsList(a) <==> x in AsList(b)
    ensures Make(a, isArray, nullable) == Make(b, isArray, nullable)
    ensures Make(Many(Make(a, isArray, nullable).classNames), isArray, nullable) == Make(a, isArray, nullable)
  {
    var da := Make(a, isArray, nullable);
    var db := Make(b, isArray, nullable);
    SortedSetUnique(da.classNames, db.classNames);
    SortedSetUnique(Make(Many(da.classNames), isArray, nullable).classNames, da.classNames);
  }

  /** The older definition: names as given, the array flag, and whether null is allowed. */
  datatype LegacyDefinition = LegacyDefinition(classNames: seq<string>, isArray: bool, isNullAllowed: bool)

  /** The older constructor: isArray defaults to false; isNullAllowed is whether 'null' was given. */
  function MakeLegacy(names: ClassNames, isArray: bool := false): (d: LegacyDefinition)
    ensures d.classNames == AsList(names) && d.isArray == isArray
    ensures d.isNullAllowed <==> NULL in AsList(names)
  {
    var listed := AsList(names);
    LegacyDefinition(listed, isArray, NULL in listed)
  }

  /** The older definition keeps the order and repetitions it was given, unlike the newer one. */
  lemma LegacyKeepsOrder()
    ensures MakeLegacy(Many(["int", "int"])).classNames == ["int", "int"]
    ensures Make(Many(["int", "int"]), false, false).classNames == ["int"]
    ensures MakeLegacy(One("null")).isNullAllowed && !MakeLegacy(One("int")).isArray
  {
    var d := Make(Many(["int", "int"]), false, false);
    SortedSetUnique(d.classNames, ["int"]);
  }
}
