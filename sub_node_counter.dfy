/**
 * Data\SubNodeCounter: for one sub node slot, how many sub nodes were seen
 * (`$hits`) and, per accepted class name, a LanguageLevelCounter of their
 * 'from' levels and how many were counted there (`$encounters`). Only sub
 * nodes introduced after the oldest level are counted.
 */
module SubNodeCounting {
  import opened Wrappers
  import opened PhpValues
  import opened LanguageLevel
  import opened LanguageLevelTuples
  import opened SubNodeDefinitions
  import opened Registry
  import opened Hits
  import opened DataCounter
  import opened WeightedTuples
  import SuperclassRegistrar

  /**
   * The counter's state: `$hits`, the values of each class's
   * LanguageLevelCounter, and `$encounters`.
   */
  datatype Tally = Tally(hits: nat, counts: map<string, seq<real>>, encounters: map<string, nat>)

  /** The sum of a tuple's entries. */
  function Mass(v: seq<real>): real
    decreases |v|
  {
    if |v| == 0 then 0.0 else Mass(v[..|v| - 1]) + v[|v| - 1]
  }

  /** The encounters of the listed classes, added up. */
  function Encountered(names: seq<string>, encounters: map<string, nat>): nat
    requires forall c :: c in names ==> c in encounters
    decreases |names|
  {
    if |names| == 0 then 0
    else Encountered(names[..|names| - 1], encounters) + encounters[names[|names| - 1]]
  }

  /** One counter and one encounter count per class the definition accepts. */
  ghost predicate Shaped(d: Definition, t: Tally)
  {
    forall i :: 0 <= i < |d.classNames| ==>
      d.classNames[i] in t.counts && d.classNames[i] in t.encounters && Full(t.counts[d.classNames[i]])
  }

  /**
   * The counter's invariant: each class's counter holds no negative entry
   * and exactly as many hits as that class's encounter count, and all the
   * encounters together are at most `$hits`.
   */
  ghost predicate Tracks(d: Definition, t: Tally)
  {
    Shaped(d, t) &&
    (forall i :: 0 <= i < |d.classNames| ==>
      NonNegative(t.counts[d.classNames[i]]) && Mass(t.counts[d.classNames[i]]) == t.encounters[d.classNames[i]] as real) &&
    Encountered(d.classNames, t.encounters) <= t.hits
  }

  /** The constructor: a zeroed counter and a zero encounter count per accepted class name. */
  function Start(d: Definition): (t: Tally)
    ensures t.hits == 0 && Shaped(d, t)
    ensures forall c :: c in t.counts <==> c in d.classNames
    ensures forall c :: c in t.counts ==> c in t.encounters && t.counts[c] == Zero() && t.encounters[c] == 0
  {
    Tally(0, map c | c in d.classNames :: Zero(), map c | c in d.classNames :: 0)
  }

  // ---------------------------------------------------------------- classifying one sub node

  function InvalidSubNode(phpType: string): Exception
  {
    InvalidArgumentException("Invalid sub node type for given sub node definition" + phpType)
  }

  /**
   * getClass: null, int, float and string become the pseudo classes, any
   * other scalar (a bool) is refused, a node is looked up for its umbrella
   * class, and anything else (an array inside an array, an enum case) is
   * refused.
   */
  function GetClass(m: NodeMap, v: Value): (r: Result<string>)
    ensures r.Ok? && !v.Obj? ==> r.value in [NULL, INT, FLOAT, STRING]
    ensures (v.Null? || v.Int? || v.Float? || v.Str?) <==> r.Ok? && !v.Obj?
  {
    match v
    case Null => Ok(NULL)
    case Int(_) => Ok(INT)
    case Float(_) => Ok(FLOAT)
    case Str(_) => Ok(STRING)
    case Bool(_) => Err(RuntimeException)
    case Obj(n) => SuperclassRegistrar.SuperclassOf(m, n.cls)
    case Arr(_) => Err(InvalidSubNode("array"))
    case Lvl(_) => Err(InvalidSubNode("object"))
  }

  /**
   * The class a sub node is counted under: its class from getClass when the
   * definition accepts it, otherwise a node's exact class when accepted;
   * anything else is a DomainException.
   */
  function CountedClass(m: NodeMap, d: Definition, v: Value): (r: Result<string>)
    ensures r.Ok? ==> Accepts(d, r.value)
    ensures GetClass(m, v).Err? ==> r == GetClass(m, v)
  {
    var c := GetClass(m, v);
    if c.Err? then c
    else if Accepts(d, c.value) then c
    else if v.Obj? && Accepts(d, PhpClasses.ClassName(v.node.cls)) then Ok(PhpClasses.ClassName(v.node.cls))
    else Err(DomainException)
  }

  /** hitSingle's `$from`: a node's 'from' attribute unless it is falsy, OLDEST otherwise. */
  function FromOf(v: Value): Value
  {
    if v.Obj? && !Falsy(GetAttribute(v.node, "from")) then GetAttribute(v.node, "from") else Lvl(OLDEST)
  }

  // ---------------------------------------------------------------- hits

  /**
   * hitSingle: `$hits` goes up first, whatever follows. A sub node whose
   * class is refused stops there; one whose from is OLDEST is not counted;
   * otherwise its class's counter is hit at from (a from that is not a level
   * is refused by hit's parameter type) and its encounter count goes up.
   */
  function HitOne(m: NodeMap, d: Definition, t: Tally, v: Value): (r: (Tally, Outcome))
    requires Shaped(d, t)
    ensures r.0.hits == t.hits + 1 && Shaped(d, r.0)
  {
    HitAs(d, t, CountedClass(m, d, v), FromOf(v))
  }

  /** hitSingle once the class it is counted under and its from level are known. */
  function HitAs(d: Definition, t: Tally, c: Result<string>, from: Value): (r: (Tally, Outcome))
    requires Shaped(d, t) && (c.Ok? ==> Accepts(d, c.value))
    ensures r.0.hits == t.hits + 1 && Shaped(d, r.0)
  {
    var seen := t.(hits := t.hits + 1);
    if c.Err? then (seen, Fail(c.error))
    else if from == Lvl(OLDEST) then (seen, Pass)
    else if !from.Lvl? then (seen, Fail(TypeError))
    else (Counted(t, c.value, from.level), Pass)
  }

  /** The foreach over an array: hitSingle on each element, stopping at the first failure. */
  function HitEach(m: NodeMap, d: Definition, t: Tally, items: seq<Value>): (r: (Tally, Outcome))
    requires Shaped(d, t)
    ensures Shaped(d, r.0)
    decreases |items|
  {
    if |items| == 0 then (t, Pass)
    else
      var next := HitOne(m, d, t, items[0]);
      if next.1.Fail? then next else HitEach(m, d, next.0, items[1..])
  }

  function ArrayNotAllowed(): Exception
  {
    RuntimeException
  }

  /**
   * hit: an array needs an array definition and hits each element, returning
   * its length; any other value is hit once and returns 1.
   */
  function HitValue(m: NodeMap, d: Definition, t: Tally, v: Value): (r: (Tally, Result<nat>))
    requires Shaped(d, t)
    ensures Shaped(d, r.0)
  {
    if v.Arr? then
      if !d.isArray then (t, Err(ArrayNotAllowed()))
      else
        var next := HitEach(m, d, t, v.items);
        (next.0, if next.1.Fail? then Err(next.1.error) else Ok(|v.items|))
    else
      var next := HitOne(m, d, t, v);
      (next.0, if next.1.Fail? then Err(next.1.error) else Ok(1))
  }

  // ---------------------------------------------------------------- the tuple

  /** getTuple's terms: each class's counter, weighted by its encounters over `$hits` (0 without hits). */
  function Parts(names: seq<string>, t: Tally): (ps: seq<Part>)
    requires forall c :: c in names ==> c in t.counts && c in t.encounters && Full(t.counts[c])
    ensures |ps| == |names| && AllFull(ps)
    ensures forall i :: 0 <= i < |names| ==>
      ps[i] == Part(t.counts[names[i]], Share(t.encounters[names[i]], t.hits))
  {
    seq(|names|, i requires 0 <= i < |names| => Part(t.counts[names[i]], Share(t.encounters[names[i]], t.hits)))
  }

  /** getTuple: Σ over the accepted classes of normalize(counter) × encounters / hits. */
  function TupleOf(d: Definition, t: Tally): seq<real>
    requires Shaped(d, t)
  {
    WeightedSum(Parts(d.classNames, t))
  }

  // ---------------------------------------------------------------- lemmas

  lemma {:induction false} MassZero(n: nat)
    ensures Mass(seq(n, i => 0.0)) == 0.0
  {
    if n > 0 {
      assert seq(n, i => 0.0)[..n - 1] == seq(n - 1, i => 0.0);
      MassZero(n - 1);
    }
  }

  /** Raising one entry by 1 raises the sum by 1. */
  lemma {:induction false} MassBump(v: seq<real>, k: int)
    requires 0 <= k < |v|
    ensures Mass(v[k := v[k] + 1.0]) == Mass(v) + 1.0
    decreases |v|
  {
    var n := |v| - 1;
    var w := v[k := v[k] + 1.0];
    if k == n {
      assert w[..n] == v[..n];
    } else {
      assert w[..n] == v[..n][k := v[k] + 1.0];
      MassBump(v[..n], k);
    }
  }

  lemma {:induction false} EncounteredZero(names: seq<string>, encounters: map<string, nat>)
    requires forall c :: c in names ==> c in encounters && encounters[c] == 0
    ensures Encountered(names, encounters) == 0
    decreases |names|
  {
    if |names| > 0 {
      EncounteredZero(names[..|names| - 1], encounters);
    }
  }

  /** Counting one more encounter of a listed class adds one to the total; of an unlisted class, nothing. */
  lemma {:induction false} EncounteredBump(names: seq<string>, encounters: map<string, nat>, c: string)
    requires forall x :: x in names ==> x in encounters
    requires DuplicateFree(names) && c in encounters
    ensures Encountered(names, encounters[c := encounters[c] + 1]) ==
      Encountered(names, encounters) + if c in names then 1 else 0
    decreases |names|
  {
    if |names| > 0 {
      var n := |names| - 1;
      assert forall x :: x in names[..n] ==> x in names;
      EncounteredBump(names[..n], encounters, c);
      assert names == names[..n] + [names[n]];
      assert c in names <==> c in names[..n] || c == names[n];
      if c == names[n] {
        assert c !in names[..n];
      }
    }
  }

  /** A fresh counter keeps the invariant. */
  lemma StartTracks(d: Definition)
    ensures Tracks(d, Start(d))
  {
    MassZero(SIZE);
    EncounteredZero(d.classNames, Start(d).encounters);
  }

  /**
   * The state after one counted hit of class k at level l: the class's
   * counter raised at l (what its hit does, by HitOnce) and its encounter
   * count raised.
   */
  function Counted(t: Tally, k: string, l: Level): Tally
    requires k in t.counts && k in t.encounters && Full(t.counts[k])
  {
    var v := t.counts[k];
    t.(hits := t.hits + 1,
       counts := t.counts[k := v[Index(l) := v[Index(l)] + 1.0]],
       encounters := t.encounters[k := t.encounters[k] + 1])
  }

  /** A counter hit at one level raises that one entry by 1. */
  lemma HitOnce(v: seq<real>, l: Level, ls: seq<Level>)
    requires Full(v) && ls == [l]
    ensures HitValues(v, ls) == v[Index(l) := v[Index(l)] + 1.0]
  {
    assert ls[..0] == [];
  }

  lemma CountedShaped(d: Definition, t: Tally, k: string, l: Level)
    requires Shaped(d, t) && Accepts(d, k)
    ensures Shaped(d, Counted(t, k, l))
  {
  }

  /** A counted hit raises the counted class's count and its encounters together. */
  lemma CountedCounts(d: Definition, t: Tally, k: string, l: Level)
    requires Tracks(d, t) && Accepts(d, k)
    ensures var r := Counted(t, k, l);
      forall i :: 0 <= i < |d.classNames| ==> var c := d.classNames[i];
        NonNegative(r.counts[c]) && Mass(r.counts[c]) == r.encounters[c] as real
  {
    MassBump(t.counts[k], Index(l));
  }

  /** A counted hit adds one hit and one encounter. */
  lemma CountedEncountered(d: Definition, t: Tally, k: string, l: Level)
    requires Tracks(d, t) && DuplicateFree(d.classNames) && Accepts(d, k)
    ensures Encountered(d.classNames, Counted(t, k, l).encounters) <= Counted(t, k, l).hits
  {
    EncounteredBump(d.classNames, t.encounters, k);
  }

  /** So a counted hit keeps the invariant. */
  lemma CountedTracks(d: Definition, t: Tally, k: string, l: Level)
    requires Tracks(d, t) && DuplicateFree(d.classNames) && Accepts(d, k)
    ensures Tracks(d, Counted(t, k, l))
  {
    CountedShaped(d, t, k, l);
    CountedCounts(d, t, k, l);
    CountedEncountered(d, t, k, l);
  }

  /** hitSingle keeps the invariant, whichever way it ends. */
  lemma HitAsTracks(d: Definition, t: Tally, c: Result<string>, from: Value)
    requires Tracks(d, t) && DuplicateFree(d.classNames) && (c.Ok? ==> Accepts(d, c.value))
    ensures Tracks(d, HitAs(d, t, c, from).0)
  {
    if c.Ok? && from != Lvl(OLDEST) && from.Lvl? {
      CountedTracks(d, t, c.value, from.level);
    }
  }

  lemma HitOneTracks(m: NodeMap, d: Definition, t: Tally, v: Value)
    requires Tracks(d, t) && DuplicateFree(d.classNames)
    ensures Tracks(d, HitOne(m, d, t, v).0)
  {
    HitAsTracks(d, t, CountedClass(m, d, v), FromOf(v));
  }

  lemma {:induction false} HitEachTracks(m: NodeMap, d: Definition, t: Tally, items: seq<Value>)
    requires Tracks(d, t) && DuplicateFree(d.classNames)
    ensures Tracks(d, HitEach(m, d, t, items).0)
    decreases |items|
  {
    if |items| > 0 {
      HitOneTracks(m, d, t, items[0]);
      HitEachTracks(m, d, HitOne(m, d, t, items[0]).0, items[1..]);
    }
  }

  /** hit keeps the invariant, whether it succeeds or not. */
  lemma HitValueTracks(m: NodeMap, d: Definition, t: Tally, v: Value)
    requires Tracks(d, t) && DuplicateFree(d.classNames)
    ensures Tracks(d, HitValue(m, d, t, v).0)
  {
    if v.Arr? {
      HitEachTracks(m, d, t, v.items);
    } else {
      HitOneTracks(m, d, t, v);
    }
  }

  /**
   * Each element hit adds one to `$hits`, counted or not: a successful pass
   * over n elements adds exactly n, a failed one at most n.
   */
  lemma {:induction false} HitEachSeesEach(m: NodeMap, d: Definition, t: Tally, items: seq<Value>)
    requires Shaped(d, t)
    ensures var r := HitEach(m, d, t, items);
      t.hits < r.0.hits <= t.hits + |items| || (items == [] && r.0 == t)
    ensures HitEach(m, d, t, items).1.Pass? ==> HitEach(m, d, t, items).0.hits == t.hits + |items|
    decreases |items|
  {
    if |items| > 0 {
      HitEachSeesEach(m, d, HitOne(m, d, t, items[0]).0, items[1..]);
    }
  }

  /**
   * What hit returns: the array's length or 1, and exactly that many more
   * hits; an array in a non-array slot is refused before anything changes.
   */
  lemma HitValueReturnsCount(m: NodeMap, d: Definition, t: Tally, v: Value)
    requires Shaped(d, t)
    ensures var r := HitValue(m, d, t, v);
      (v.Arr? && !d.isArray ==> r == (t, Err(RuntimeException))) &&
      (r.1.Ok? ==> r.1.value == (if v.Arr? then |v.items| else 1) && r.0.hits == t.hits + r.1.value) &&
      (!v.Arr? ==> r.0.hits == t.hits + 1) &&
      t.hits <= r.0.hits
  {
    if v.Arr? && d.isArray {
      HitEachSeesEach(m, d, t, v.items);
    }
  }

  /** Scalars and null are never counted: only `$hits` changes. */
  lemma ScalarsNotCounted(m: NodeMap, d: Definition, t: Tally, v: Value)
    requires Shaped(d, t) && !v.Obj?
    ensures HitOne(m, d, t, v).0 == t.(hits := t.hits + 1)
  {
  }

  /** Nor is a node whose from is OLDEST, or unset. */
  lemma OldestNotCounted(m: NodeMap, d: Definition, t: Tally, n: Node)
    requires Shaped(d, t)
    requires Falsy(GetAttribute(n, "from")) || GetAttribute(n, "from") == Lvl(OLDEST)
    ensures HitOne(m, d, t, Obj(n)).0 == t.(hits := t.hits + 1)
  {
  }

  /**
   * A node introduced after the oldest level whose class is accepted raises
   * its class's count at that level by one, leaves every other level and
   * class alone, and adds one encounter.
   */
  lemma CountedNodeRaisesOneLevel(m: NodeMap, d: Definition, t: Tally, n: Node, l: Level, at: Level)
    requires Shaped(d, t) && CountedClass(m, d, Obj(n)).Ok?
    requires GetAttribute(n, "from") == Lvl(l) && l != OLDEST
    ensures var k := CountedClass(m, d, Obj(n)).value;
      var r := HitOne(m, d, t, Obj(n)).0;
      r.counts[k][Index(at)] == t.counts[k][Index(at)] + (if at == l then 1.0 else 0.0) &&
      r.encounters[k] == t.encounters[k] + 1 &&
      (forall c :: c in t.counts && c != k ==> r.counts[c] == t.counts[c]) &&
      (forall c :: c in t.encounters && c != k ==> r.encounters[c] == t.encounters[c])
  {
    IndexInjective(at, l);
  }

  /** The node's umbrella class wins over its exact class; the exact class is the fallback. */
  lemma UmbrellaBeforeExactClass(m: NodeMap, d: Definition, n: Node, umbrella: string)
    requires SuperclassRegistrar.SuperclassOf(m, n.cls) == Ok(umbrella)
    ensures Accepts(d, umbrella) ==> CountedClass(m, d, Obj(n)) == Ok(umbrella)
    ensures !Accepts(d, umbrella) && Accepts(d, PhpClasses.ClassName(n.cls)) ==>
      CountedClass(m, d, Obj(n)) == Ok(PhpClasses.ClassName(n.cls))
    ensures !Accepts(d, umbrella) && !Accepts(d, PhpClasses.ClassName(n.cls)) ==>
      CountedClass(m, d, Obj(n)) == Err(DomainException)
  {
  }

  /** The factors of getTuple add up to the encounters over the hits. */
  lemma {:induction false} PartsFactorSum(names: seq<string>, t: Tally)
    requires forall c :: c in names ==> c in t.counts && c in t.encounters && Full(t.counts[c])
    ensures FactorSum(Parts(names, t)) == Share(Encountered(names, t.encounters), t.hits)
    decreases |names|
  {
    if |names| > 0 {
      var n := |names| - 1;
      assert Parts(names, t)[..n] == Parts(names[..n], t);
      PartsFactorSum(names[..n], t);
      AddShares(Encountered(names[..n], t.encounters), t.encounters[names[n]], t.hits);
    }
  }

  /** Every part of getTuple has counts for values and a share for a factor: nothing negative. */
  lemma PartsNonNegative(d: Definition, t: Tally)
    requires Tracks(d, t)
    ensures forall i :: 0 <= i < |d.classNames| ==>
      NonNegative(Parts(d.classNames, t)[i].values) && 0.0 <= Parts(d.classNames, t)[i].factor
  {
    var ps := Parts(d.classNames, t);
    forall i | 0 <= i < |ps| ensures NonNegative(ps[i].values) && 0.0 <= ps[i].factor {
      assert d.classNames[i] in t.counts;
    }
  }

  /** getTuple's weights add up to at most 1, so every entry of the tuple is between 0 and 1. */
  lemma TupleBounded(d: Definition, t: Tally)
    requires Tracks(d, t)
    ensures FactorSum(Parts(d.classNames, t)) <= 1.0
    ensures UnitBounded(TupleOf(d, t))
  {
    PartsFactorSum(d.classNames, t);
    PartsNonNegative(d, t);
    WeightedSumBounds(Parts(d.classNames, t));
  }

  /** Before any hit every weight is 0 and getTuple gives the zero tuple. */
  lemma TupleZeroWithoutHits(d: Definition, t: Tally)
    requires Shaped(d, t) && t.hits == 0
    ensures TupleOf(d, t) == Zero()
  {
    WeightedSumOfZeroFactors(Parts(d.classNames, t));
  }

  // ---------------------------------------------------------------- the object

  class SubNodeCounter {
    const definition: Definition
    var hits: nat
    /** Each accepted class's LanguageLevelCounter, by its values. */
    var counts: map<string, seq<real>>
    var encounters: map<string, nat>

    function State(): Tally
      reads this
    {
      Tally(hits, counts, encounters)
    }

    ghost predicate Valid()
      reads this
    {
      Tracks(definition, State()) && DuplicateFree(definition.classNames)
    }

    /** One zeroed counter and a zero encounter count per class name. */
    constructor(d: Definition)
      requires DuplicateFree(d.classNames)
      ensures definition == d && State() == Start(d) && Valid()
    {
      definition := d;
      hits := 0;
      var cs, es := ZeroCounters(d.classNames);
      counts := cs;
      encounters := es;
      new;
      assert counts == Start(d).counts && encounters == Start(d).encounters;
      StartTracks(d);
    }

    /** The constructor's loop over the class names. */
    static method ZeroCounters(names: seq<string>) returns (cs: map<string, seq<real>>, es: map<string, nat>)
      ensures cs == map c | c in names :: Zero()
      ensures es == map c | c in names :: 0
    {
      cs := map[];
      es := map[];
      for i := 0 to |names|
        invariant cs == map c | c in names[..i] :: Zero()
        invariant es == map c | c in names[..i] :: 0
      {
        assert names[..i + 1] == names[..i] + [names[i]];
        cs := cs[names[i] := Zero()];
        es := es[names[i] := 0];
      }
      assert names[..|names|] == names;
    }

    /** hitSingle: classify the value and read its `from` attribute, then count. */
    method HitSingle(m: NodeMap, v: Value) returns (r: Outcome)
      requires Shaped(definition, State())
      modifies this
      ensures (State(), r) == HitOne(m, definition, old(State()), v)
    {
      r := HitAt(CountedClass(m, definition, v), FromOf(v));
    }

    /** The rest of hitSingle once the class and `from` are known: the hit is counted first. */
    method HitAt(c: Result<string>, from: Value) returns (r: Outcome)
      requires Shaped(definition, State()) && (c.Ok? ==> Accepts(definition, c.value))
      modifies this
      ensures (State(), r) == HitAs(definition, old(State()), c, from)
    {
      ghost var before := State();
      hits := hits + 1;
      if c.Err? {
        r := Fail(c.error);
      } else if from == Lvl(OLDEST) {
        r := Pass;
      } else if !from.Lvl? {
        r := Fail(TypeError);
      } else {
        Record(c.value, from.level);
        r := Pass;
      }
    }

    /** `$this->counters[$class]->hit($from)` and `$this->encounters[$class]++`. */
    method Record(k: string, l: Level)
      requires k in counts && k in encounters && Full(counts[k])
      modifies this
      ensures hits == old(hits)
      ensures counts == old(counts[k := counts[k][Index(l) := counts[k][Index(l)] + 1.0]])
      ensures encounters == old(encounters[k := encounters[k] + 1])
    {
      var counter := counts[k];
      counts := counts[k := counter[Index(l) := counter[Index(l)] + 1.0]];
      encounters := encounters[k := encounters[k] + 1];
    }

    /** hit: the array check, then hitSingle on each element or on the value itself. */
    method Hit(m: NodeMap, v: Value) returns (r: Result<nat>)
      requires Valid()
      modifies this
      ensures Valid() && (State(), r) == HitValue(m, definition, old(State()), v)
    {
      HitValueTracks(m, definition, State(), v);
      if v.Arr? {
        if !definition.isArray {
          return Err(ArrayNotAllowed());
        }
        var items := v.items;
        var i := 0;
        while i < |items|
          invariant 0 <= i <= |items| && Shaped(definition, State())
          invariant HitEach(m, definition, old(State()), items) == HitEach(m, definition, State(), items[i..])
        {
          assert items[i..][1..] == items[i + 1..];
          var o := HitSingle(m, items[i]);
          if o.Fail? {
            return Err(o.error);
          }
          i := i + 1;
        }
        return Ok(|items|);
      }
      var o := HitSingle(m, v);
      r := if o.Fail? then Err(o.error) else Ok(1);
    }

    /** getTuple: the weighted sum over the class names, in the definition's order; nothing changes. */
    method GetTuple() returns (t: seq<real>)
      requires Shaped(definition, State())
      ensures t == TupleOf(definition, State())
    {
      var names := definition.classNames;
      var ps := Parts(names, State());
      t := Zero();
      for i := 0 to |names|
        invariant t == WeightedSum(ps[..i])
      {
        assert ps[..i + 1][..i] == ps[..i];
        var share := if hits > 0 then encounters[names[i]] as real / hits as real else 0.0;
        t := Sum(t, Scaled(Normalized(counts[names[i]]), share));
      }
      assert ps[..|names|] == ps;
    }
  }
}
