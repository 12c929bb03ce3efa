/**
 * The offline scripts that derive the node class hierarchy and print it as
 * registrar source: HierarchyDeterminator (subclass lists and topmost
 * ancestors) and SubclassDeterminator (subclass lists only). The class
 * finder and `is_subclass_of` are parameters: the classes found in the
 * parser's namespace, and a relation `sub(a, b)` that holds when class a
 * is a proper descendant of class or interface b. Reading the stub and
 * writing the registrar file are not part of this model; the texts that
 * would be written are returned.
 */
module ClassHierarchy {
  import opened Wrappers
  import Sorting
  import opened SubNodeDefinitions

  /** `is_subclass_of($a, $b)`. */
  type Relation = (string, string) -> bool

  /** The namespace prefix the printed names lose: `PhpParser\`. */
  const PREFIX: string := "PhpParser\\"
  /** The root of the hierarchy script's classes. */
  const NODE_ABSTRACT: string := "PhpParser\\NodeAbstract"
  /** The root of the subclass script's classes. */
  const NODE: string := "PhpParser\\Node"
  /** The indentation of each printed mapping line: nine spaces. */
  const INDENT: string := "         "

  // ---------------------------------------------------------------------
  // The specification of each step

  /**
   * findClasses over the keys ks so far: each found class that subclasses
   * root becomes a key, once, at its first appearance.
   */
  function Kept(sub: Relation, ks: seq<string>, found: seq<string>, root: string): seq<string>
  {
    if |found| == 0 then ks
    else
      var before := Kept(sub, ks, found[..|found| - 1], root);
      var c := found[|found| - 1];
      if sub(c, root) && c !in before then before + [c] else before
  }

  /** The keys are the earlier keys and the found subclasses of root, each once. */
  lemma {:induction false} KeptMembers(sub: Relation, ks: seq<string>, found: seq<string>, root: string)
    requires DuplicateFree(ks)
    ensures DuplicateFree(Kept(sub, ks, found, root))
    ensures forall x :: x in Kept(sub, ks, found, root) <==> x in ks || (x in found && sub(x, root))
  {
    if |found| > 0 {
      KeptMembers(sub, ks, found[..|found| - 1], root);
      assert found == found[..|found| - 1] + [found[|found| - 1]];
    }
  }

  /** findSubclasses' list for c over the classes os: the others that subclass c, in order. */
  function Below(sub: Relation, os: seq<string>, c: string): seq<string>
  {
    if |os| == 0 then []
    else
      var o := os[|os| - 1];
      Below(sub, os[..|os| - 1], c) + (if c != o && sub(o, c) then [o] else [])
  }

  /** The list holds exactly the strict subclasses of c among os, never c itself, each once. */
  lemma {:induction false} BelowMembers(sub: Relation, os: seq<string>, c: string)
    requires DuplicateFree(os)
    ensures DuplicateFree(Below(sub, os, c))
    ensures forall x :: x in Below(sub, os, c) <==> x in os && x != c && sub(x, c)
  {
    if |os| > 0 {
      BelowMembers(sub, os[..|os| - 1], c);
      assert os == os[..|os| - 1] + [os[|os| - 1]];
    }
  }

  /** removeDuplicates on one list: sort, then array_unique. */
  function Tidy(xs: seq<string>): seq<string>
  {
    Sorting.Unique(Sorting.Sort(xs, StrLe))
  }

  /** After removeDuplicates a list is sorted, has no duplicates, and holds the same names. */
  lemma Tidies(xs: seq<string>)
    ensures Sorting.SortedBy(Tidy(xs), StrLe) && DuplicateFree(Tidy(xs))
    ensures forall x :: x in Tidy(xs) <==> x in xs
  {
    StrLeOrders();
    var s := Sorting.Sort(xs, StrLe);
    Sorting.SortSorted(xs, StrLe);
    Sorting.SortPermutes(xs, StrLe);
    Sorting.UniqueSorted(s, StrLe);
    forall x
      ensures x in s <==> x in xs
    {
      assert x in s <==> x in multiset(s);
      assert x in xs <==> x in multiset(xs);
    }
  }

  /**
   * findSuperclasses for one class c, over the parents ps in order, from
   * cur: a parent whose list holds c is taken when there is none yet, or
   * when the current one is a subclass of it (a higher parent).
   */
  function Climb(sub: Relation, children: map<string, seq<string>>, ps: seq<string>, c: string,
                 cur: Option<string>): Option<string>
    requires forall p :: p in ps ==> p in children
  {
    if |ps| == 0 then cur
    else
      var sofar := Climb(sub, children, ps[..|ps| - 1], c, cur);
      var p := ps[|ps| - 1];
      if c in children[p] && (sofar.None? || sub(sofar.value, p)) then Some(p) else sofar
  }

  /** p is a proper ancestor of c. */
  predicate Above(sub: Relation, c: string, p: string)
  {
    p != c && sub(c, p)
  }

  /**
   * What PHP's class model guarantees over the classes: subclassing is
   * transitive, and the ancestors of a class form a chain (single
   * inheritance).
   */
  ghost predicate ClassTree(sub: Relation, classes: seq<string>)
  {
    (forall a, b, d :: a in classes && b in classes && d in classes && sub(a, b) && sub(b, d) ==> sub(a, d)) &&
    (forall a, b, d :: a in classes && b in classes && d in classes && sub(a, b) && sub(a, d) && b != d ==>
       sub(b, d) || sub(d, b))
  }

  /** Every class's list holds exactly its strict subclasses among the classes. */
  ghost predicate ExactChildren(sub: Relation, classes: seq<string>, children: map<string, seq<string>>)
  {
    forall p :: p in classes ==> p in children && forall x :: x in children[p] <==> x in classes && x != p && sub(x, p)
  }

  /**
   * r is the superclass findSuperclasses should find for c among ps: none
   * exactly when c has no ancestor there, and otherwise the ancestor every
   * other ancestor descends from.
   */
  predicate Topmost(sub: Relation, ps: seq<string>, c: string, r: Option<string>)
  {
    (r.None? <==> forall p :: p in ps ==> !Above(sub, c, p)) &&
    (r.Some? ==>
       r.value in ps && Above(sub, c, r.value) &&
       (forall q :: q in ps && Above(sub, c, q) && q != r.value ==> sub(q, r.value)))
  }

  /** Over exact lists and a class tree, findSuperclasses ends at the topmost ancestor. */
  lemma {:induction false} ClimbTopmost(sub: Relation, children: map<string, seq<string>>, classes: seq<string>,
                                        ps: seq<string>, c: string)
    requires ExactChildren(sub, classes, children) && ClassTree(sub, classes)
    requires DuplicateFree(ps) && (forall p :: p in ps ==> p in classes) && c in classes
    ensures Topmost(sub, ps, c, Climb(sub, children, ps, c, None))
  {
    if |ps| > 0 {
      var init := ps[..|ps| - 1];
      var x := ps[|ps| - 1];
      assert ps == init + [x];
      ClimbTopmost(sub, children, classes, init, c);
      var r0 := Climb(sub, children, init, c, None);
      assert c in children[x] <==> Above(sub, c, x);
      if Above(sub, c, x) && r0.Some? {
        var p := r0.value;
        assert p != x;
        if sub(p, x) {
          forall q | q in ps && Above(sub, c, q) && q != x
            ensures sub(q, x)
          {
            if q != p {
              assert sub(q, p);
            }
          }
        } else {
          assert sub(x, p);
        }
      }
    }
  }

  // ---------------------------------------------------------------------
  // The printed mappings

  /** translateClassName: the name without its first ten characters (`PhpParser\`), then `::class`. */
  function ClassName(c: string): string
  {
    (if |c| >= |PREFIX| then c[|PREFIX|..] else "") + "::class"
  }

  /** For a name in the parser's namespace, the printed name gives the class name back. */
  lemma ClassNameInverse(c: string)
    requires |c| >= |PREFIX| && c[..|PREFIX|] == PREFIX
    ensures var t := ClassName(c);
      |t| >= 7 && t[|t| - 7..] == "::class" && PREFIX + t[..|t| - 7] == c
  {
    var t := ClassName(c);
    assert t[..|t| - 7] == c[|PREFIX|..];
    assert c == c[..|PREFIX|] + c[|PREFIX|..];
  }

  function ClassNames(xs: seq<string>): seq<string>
  {
    seq(|xs|, i requires 0 <= i < |xs| => ClassName(xs[i]))
  }

  /** implode(sep, xs). */
  function Join(sep: string, xs: seq<string>): string
  {
    if |xs| == 0 then ""
    else if |xs| == 1 then xs[0]
    else Join(sep, xs[..|xs| - 1]) + sep + xs[|xs| - 1]
  }

  /** translateSubclassMapping / translateMapping: one registrar line. */
  function SubclassLine(c: string, subclasses: seq<string>): string
  {
    SubclassEntry(c, subclasses) + "\n"
  }

  /** The line without its line break. */
  function SubclassEntry(c: string, subclasses: seq<string>): string
  {
    INDENT + "$mapping->map(" + ClassName(c) + ", new SubclassInformation([" +
    Join(", ", ClassNames(subclasses)) + "]));"
  }

  /** `$parent ?: $className`: a missing (or falsy) parent prints the class itself. */
  function ParentOrSelf(c: string, parent: Option<string>): string
  {
    if parent.None? || parent.value == "" || parent.value == "0" then c else parent.value
  }

  /** translateSuperclassMapping: one registrar line. */
  function SuperclassLine(c: string, parent: Option<string>): string
  {
    SuperclassEntry(c, parent) + "\n"
  }

  /** The line without its line break. */
  function SuperclassEntry(c: string, parent: Option<string>): string
  {
    INDENT + "$mapping->map(" + ClassName(c) + ", new SuperclassInformation(" +
    ClassName(ParentOrSelf(c, parent)) + "));"
  }

  /** getTranslatedSubclassMapping: the lines of the classes cs, in key order. */
  function SubclassText(cs: seq<string>, subMap: map<string, seq<string>>): string
    requires forall c :: c in cs ==> c in subMap
  {
    if |cs| == 0 then ""
    else SubclassText(cs[..|cs| - 1], subMap) + SubclassLine(cs[|cs| - 1], subMap[cs[|cs| - 1]])
  }

  /** getTranslatedSuperclassMapping: the lines of the classes cs, in key order. */
  function SuperclassText(cs: seq<string>, supMap: map<string, Option<string>>): string
    requires forall c :: c in cs ==> c in supMap
  {
    if |cs| == 0 then ""
    else SuperclassText(cs[..|cs| - 1], supMap) + SuperclassLine(cs[|cs| - 1], supMap[cs[|cs| - 1]])
  }

  /** The number of line breaks in s. */
  function Breaks(s: string): nat
  {
    if |s| == 0 then 0 else Breaks(s[..|s| - 1]) + (if s[|s| - 1] == '\n' then 1 else 0)
  }

  predicate OneLine(s: string)
  {
    forall i :: 0 <= i < |s| ==> s[i] != '\n'
  }

  lemma {:induction false} BreaksAppend(a: string, b: string)
    ensures Breaks(a + b) == Breaks(a) + Breaks(b)
    decreases |b|
  {
    if |b| > 0 {
      var ab := a + b;
      assert ab[..|ab| - 1] == a + b[..|b| - 1];
      assert ab[|ab| - 1] == b[|b| - 1];
      BreaksAppend(a, b[..|b| - 1]);
      assert Breaks(ab) == Breaks(ab[..|ab| - 1]) + (if ab[|ab| - 1] == '\n' then 1 else 0);
    } else {
      assert a + b == a;
    }
  }

  lemma {:induction false} NoBreaks(s: string)
    requires OneLine(s)
    ensures Breaks(s) == 0
  {
    if |s| > 0 {
      NoBreaks(s[..|s| - 1]);
    }
  }

  lemma {:induction false} JoinOneLine(sep: string, xs: seq<string>)
    requires OneLine(sep) && forall i :: 0 <= i < |xs| ==> OneLine(xs[i])
    ensures OneLine(Join(sep, xs))
  {
    if |xs| > 1 {
      JoinOneLine(sep, xs[..|xs| - 1]);
    }
  }

  lemma OneLineAppend(a: string, b: string)
    requires OneLine(a) && OneLine(b)
    ensures OneLine(a + b)
  {
    forall i | 0 <= i < |a + b|
      ensures (a + b)[i] != '\n'
    {
      if i >= |a| {
        assert (a + b)[i] == b[i - |a|];
      }
    }
  }

  lemma ClassNameOneLine(c: string)
    requires OneLine(c)
    ensures OneLine(ClassName(c))
  {
    var rest := if |c| >= |PREFIX| then c[|PREFIX|..] else "";
    assert OneLine("::class");
    OneLineAppend(rest, "::class");
  }

  /** A line ends in its only line break. */
  lemma LineBreaks(body: string)
    requires OneLine(body)
    ensures Breaks(body + "\n") == 1
  {
    BreaksAppend(body, "\n");
    NoBreaks(body);
  }

  /** With names free of line breaks, a subclass entry is a single line. */
  lemma SubclassEntryOneLine(c: string, subclasses: seq<string>)
    requires OneLine(c) && forall x :: x in subclasses ==> OneLine(x)
    ensures OneLine(SubclassEntry(c, subclasses))
  {
    var names := ClassNames(subclasses);
    forall i | 0 <= i < |names|
      ensures OneLine(names[i])
    {
      assert subclasses[i] in subclasses;
      ClassNameOneLine(subclasses[i]);
    }
    JoinOneLine(", ", names);
    ClassNameOneLine(c);
    assert OneLine(INDENT + "$mapping->map(");
    assert OneLine(", new SubclassInformation([");
    assert OneLine("]));");
    OneLineAppend(INDENT + "$mapping->map(", ClassName(c));
    OneLineAppend(INDENT + "$mapping->map(" + ClassName(c), ", new SubclassInformation([");
    OneLineAppend(INDENT + "$mapping->map(" + ClassName(c) + ", new SubclassInformation([", Join(", ", names));
    OneLineAppend(INDENT + "$mapping->map(" + ClassName(c) + ", new SubclassInformation([" + Join(", ", names), "]));");
  }

  /** With names free of line breaks, a superclass entry is a single line. */
  lemma SuperclassEntryOneLine(c: string, parent: Option<string>)
    requires OneLine(c) && (parent.Some? ==> OneLine(parent.value))
    ensures OneLine(SuperclassEntry(c, parent))
  {
    var p := ParentOrSelf(c, parent);
    ClassNameOneLine(c);
    ClassNameOneLine(p);
    assert OneLine(INDENT + "$mapping->map(");
    assert OneLine(", new SuperclassInformation(");
    assert OneLine("));");
    OneLineAppend(INDENT + "$mapping->map(", ClassName(c));
    OneLineAppend(INDENT + "$mapping->map(" + ClassName(c), ", new SuperclassInformation(");
    OneLineAppend(INDENT + "$mapping->map(" + ClassName(c) + ", new SuperclassInformation(", ClassName(p));
    OneLineAppend(INDENT + "$mapping->map(" + ClassName(c) + ", new SuperclassInformation(" + ClassName(p), "));");
  }

  /** Class names without line breaks print as one line each: as many lines as classes. */
  lemma {:induction false} SubclassTextLines(cs: seq<string>, subMap: map<string, seq<string>>)
    requires forall c :: c in cs ==> c in subMap && OneLine(c) && forall x :: x in subMap[c] ==> OneLine(x)
    ensures Breaks(SubclassText(cs, subMap)) == |cs|
  {
    if |cs| > 0 {
      var c := cs[|cs| - 1];
      SubclassTextLines(cs[..|cs| - 1], subMap);
      SubclassEntryOneLine(c, subMap[c]);
      LineBreaks(SubclassEntry(c, subMap[c]));
      BreaksAppend(SubclassText(cs[..|cs| - 1], subMap), SubclassLine(c, subMap[c]));
    }
  }

  /** Likewise for the superclass mapping: one line per class. */
  lemma {:induction false} SuperclassTextLines(cs: seq<string>, supMap: map<string, Option<string>>)
    requires forall c :: c in cs ==> c in supMap && OneLine(c) && (supMap[c].Some? ==> OneLine(supMap[c].value))
    ensures Breaks(SuperclassText(cs, supMap)) == |cs|
  {
    if |cs| > 0 {
      var c := cs[|cs| - 1];
      SuperclassTextLines(cs[..|cs| - 1], supMap);
      SuperclassEntryOneLine(c, supMap[c]);
      LineBreaks(SuperclassEntry(c, supMap[c]));
      BreaksAppend(SuperclassText(cs[..|cs| - 1], supMap), SuperclassLine(c, supMap[c]));
    }
  }

  // ---------------------------------------------------------------------
  // The determinator

  class HierarchyDeterminator {
    /** `is_subclass_of`. */
    const sub: Relation
    /** The keys of `$subMap` and `$supMap` (the same keys), in insertion order. */
    var classes: seq<string>
    /** `$subMap`: each class's subclasses. */
    var subMap: map<string, seq<string>>
    /** `$supMap`: each class's topmost superclass, or null. */
    var supMap: map<string, Option<string>>

    ghost predicate Valid()
      reads this
    {
      DuplicateFree(classes) && (forall c :: c in subMap <==> c in classes) && (forall c :: c in supMap <==> c in classes)
    }

    /** Both maps empty. */
    constructor(sub: Relation)
      ensures Valid() && this.sub == sub && classes == [] && subMap == map[] && supMap == map[]
    {
      this.sub := sub;
      classes := [];
      subMap := map[];
      supMap := map[];
    }

    /**
     * findClasses, over the classes the finder returned: each one that
     * subclasses root gets an empty list and no superclass.
     */
    method FindClasses(found: seq<string>, root: string)
      requires Valid()
      modifies this
      ensures Valid() && classes == Kept(sub, old(classes), found, root)
      ensures forall c :: c in found && sub(c, root) ==> c in subMap && subMap[c] == [] && supMap[c] == None
      ensures forall c :: c in old(classes) && !(c in found && sub(c, root)) ==>
        c in subMap && subMap[c] == old(subMap[c]) && supMap[c] == old(supMap[c])
    {
      var ks, sm, pm := classes, subMap, supMap;
      for i := 0 to |found|
        invariant ks == Kept(sub, classes, found[..i], root)
        invariant (forall c :: c in sm <==> c in ks) && (forall c :: c in pm <==> c in ks)
        invariant forall c :: c in found[..i] && sub(c, root) ==> c in sm && sm[c] == [] && pm[c] == None
        invariant forall c :: c in classes && !(c in found[..i] && sub(c, root)) ==>
          c in sm && sm[c] == subMap[c] && pm[c] == supMap[c]
      {
        var c := found[i];
        assert found[..i + 1] == found[..i] + [c];
        assert found[..i + 1][..i] == found[..i];
        if sub(c, root) {
          // A new key goes last; an existing one keeps its place.
          if c !in sm {
            ks := ks + [c];
          }
          sm := sm[c := []];
          pm := pm[c := None];
        }
      }
      assert found[..|found|] == found;
      KeptMembers(sub, classes, found, root);
      classes, subMap, supMap := ks, sm, pm;
    }

    /** findSubclasses: each class's list gains its strict subclasses, in key order. */
    method FindSubclasses()
      requires Valid()
      modifies this
      ensures Valid() && classes == old(classes) && supMap == old(supMap)
      ensures forall c :: c in classes ==> subMap[c] == old(subMap[c]) + Below(sub, classes, c)
    {
      var sm := subMap;
      for i := 0 to |classes|
        invariant unchanged(this)
        invariant forall c :: c in sm <==> c in classes
        invariant forall k :: 0 <= k < i ==> sm[classes[k]] == subMap[classes[k]] + Below(sub, classes, classes[k])
        invariant forall k :: i <= k < |classes| ==> sm[classes[k]] == subMap[classes[k]]
      {
        var c := classes[i];
        var list := CollectSubclasses(c, sm[c]);
        sm := sm[c := list];
      }
      subMap := sm;
    }

    /** The inner loop of findSubclasses for the class c: every other key that subclasses c is appended to its list, in key order. */
    method CollectSubclasses(c: string, start: seq<string>) returns (list: seq<string>)
      ensures list == start + Below(sub, classes, c)
    {
      list := start;
      for j := 0 to |classes|
        invariant list == start + Below(sub, classes[..j], c)
      {
        var other := classes[j];
        assert classes[..j + 1][..j] == classes[..j];
        if c != other && sub(other, c) {
          list := list + [other];
        }
      }
      assert classes[..|classes|] == classes;
    }

    /** removeDuplicates: each list sorted, then stripped of repeats. */
    method RemoveDuplicates()
      requires Valid()
      modifies this
      ensures Valid() && classes == old(classes) && supMap == old(supMap)
      ensures forall c :: c in classes ==> subMap[c] == Tidy(old(subMap[c]))
    {
      var sm := subMap;
      for i := 0 to |classes|
        invariant forall c :: c in sm <==> c in classes
        invariant forall k :: 0 <= k < i ==> sm[classes[k]] == Tidy(subMap[classes[k]])
        invariant forall k :: i <= k < |classes| ==> sm[classes[k]] == subMap[classes[k]]
      {
        var c := classes[i];
        var sorted := Sorting.Sort(sm[c], StrLe);
        sm := sm[c := Sorting.Unique(sorted)];
      }
      subMap := sm;
    }

    /** findSuperclasses: each class climbs the parents whose list holds it, in key order. */
    method FindSuperclasses()
      requires Valid()
      modifies this
      ensures Valid() && classes == old(classes) && subMap == old(subMap)
      ensures forall c :: c in classes ==> supMap[c] == Climb(sub, subMap, classes, c, old(supMap[c]))
    {
      var pm := supMap;
      for i := 0 to |classes|
        invariant unchanged(this)
        invariant forall c :: c in pm <==> c in classes
        invariant forall k :: 0 <= k < i ==> pm[classes[k]] == Climb(sub, subMap, classes, classes[k], supMap[classes[k]])
        invariant forall k :: i <= k < |classes| ==> pm[classes[k]] == supMap[classes[k]]
      {
        var c := classes[i];
        var top := ClimbParents(c, pm[c]);
        pm := pm[c := top];
      }
      supMap := pm;
    }

    /**
     * The inner loop of findSuperclasses for the class c, starting from the
     * superclass found so far: each key whose list holds c replaces it when
     * nothing is found yet or the one found subclasses that key.
     */
    method ClimbParents(c: string, start: Option<string>) returns (top: Option<string>)
      requires Valid()
      ensures top == Climb(sub, subMap, classes, c, start)
    {
      top := start;
      for j := 0 to |classes|
        invariant top == Climb(sub, subMap, classes[..j], c, start)
      {
        var parent := classes[j];
        var children := subMap[parent];
        assert classes[..j + 1][..j] == classes[..j];
        if c in children && (top.None? || sub(top.value, parent)) {
          top := Some(parent);
        }
      }
      assert classes[..|classes|] == classes;
    }

    /** getTranslatedSubclassMapping / getTranslatedMapping: one line per class, in key order. */
    method TranslatedSubclassMapping() returns (mapping: string)
      requires Valid()
      ensures mapping == SubclassText(classes, subMap)
    {
      mapping := "";
      for i := 0 to |classes|
        invariant mapping == SubclassText(classes[..i], subMap)
      {
        assert classes[..i + 1][..i] == classes[..i];
        mapping := mapping + SubclassLine(classes[i], subMap[classes[i]]);
      }
      assert classes[..|classes|] == classes;
    }

    /** getTranslatedSuperclassMapping: one line per class, in key order. */
    method TranslatedSuperclassMapping() returns (mapping: string)
      requires Valid()
      ensures mapping == SuperclassText(classes, supMap)
    {
      mapping := "";
      for i := 0 to |classes|
        invariant mapping == SuperclassText(classes[..i], supMap)
      {
        assert classes[..i + 1][..i] == classes[..i];
        mapping := mapping + SuperclassLine(classes[i], supMap[classes[i]]);
      }
      assert classes[..|classes|] == classes;
    }

    /**
     * HierarchyDeterminator::run on a new determinator: the classes are the
     * found subclasses of NodeAbstract; each list holds exactly the class's
     * strict subclasses, sorted and each once; over a class tree each class
     * ends with its topmost ancestor, or none; and the two texts are what
     * would be put into the registrar stubs.
     */
    method Run(found: seq<string>) returns (subclassMapping: string, superclassMapping: string)
      requires classes == [] && subMap == map[] && supMap == map[]
      modifies this
      ensures Valid() && forall c :: c in classes <==> c in found && sub(c, NODE_ABSTRACT)
      ensures forall c :: c in classes ==>
        Sorting.SortedBy(subMap[c], StrLe) && DuplicateFree(subMap[c]) &&
        forall x :: x in subMap[c] <==> x in classes && x != c && sub(x, c)
      ensures ClassTree(sub, classes) ==> forall c :: c in classes ==> Topmost(sub, classes, c, supMap[c])
      ensures subclassMapping == SubclassText(classes, subMap)
      ensures superclassMapping == SuperclassText(classes, supMap)
    {
      SubclassSteps(found, NODE_ABSTRACT);
      ghost var lists := subMap;
      FindSuperclasses();
      assert subMap == lists;
      forall c | c in classes && ClassTree(sub, classes)
        ensures Topmost(sub, classes, c, supMap[c])
      {
        ClimbTopmost(sub, subMap, classes, classes, c);
      }
      subclassMapping := TranslatedSubclassMapping();
      superclassMapping := TranslatedSuperclassMapping();
    }

    /**
     * SubclassDeterminator::run on a new determinator: the classes are the
     * found subclasses of Node, each with exactly its strict subclasses,
     * sorted and each once; the text is what would be put into the
     * registrar stub.
     */
    method RunSubclasses(found: seq<string>) returns (mapping: string)
      requires classes == [] && subMap == map[] && supMap == map[]
      modifies this
      ensures Valid() && forall c :: c in classes <==> c in found && sub(c, NODE)
      ensures forall c :: c in classes ==>
        Sorting.SortedBy(subMap[c], StrLe) && DuplicateFree(subMap[c]) &&
        forall x :: x in subMap[c] <==> x in classes && x != c && sub(x, c)
      ensures mapping == SubclassText(classes, subMap)
    {
      SubclassSteps(found, NODE);
      mapping := TranslatedSubclassMapping();
    }

    /** findClasses, findSubclasses and removeDuplicates, as both scripts run them. */
    method SubclassSteps(found: seq<string>, root: string)
      requires classes == [] && subMap == map[] && supMap == map[]
      modifies this
      ensures Valid() && forall c :: c in classes <==> c in found && sub(c, root)
      ensures forall c :: c in classes ==> supMap[c] == None
      ensures ExactChildren(sub, classes, subMap)
      ensures forall c :: c in classes ==> Sorting.SortedBy(subMap[c], StrLe) && DuplicateFree(subMap[c])
    {
      FindClasses(found, root);
      KeptMembers(sub, [], found, root);
      FindSubclasses();
      ghost var lists := subMap;
      RemoveDuplicates();
      forall c | c in classes
        ensures Sorting.SortedBy(subMap[c], StrLe) && DuplicateFree(subMap[c])
        ensures forall x :: x in subMap[c] <==> x in classes && x != c && sub(x, c)
      {
        BelowMembers(sub, classes, c);
        Tidies(lists[c]);
      }
    }
  }
}
