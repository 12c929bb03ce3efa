/**
 * Visitors\SubNodeLanguageLevelCountingVisitor, the older counting pass:
 * for every parent node class, sub node name and sub node class, one
 * Visitors\LanguageLevelCounter, hit once for every level a sub node's
 * from..to range spans. The counters are held by value (their state);
 * getCounter's nested arrays are a map of maps of maps.
 */
module SubNodeCountingVisiting {
  import opened Wrappers
  import PhpClasses
  import opened PhpValues
  import opened LanguageLevel
  import opened SubNodeDefinitions
  import opened Registry
  import opened Hits
  import VisitorCounter
  import SuperclassRegistrar
  import NodeCounting

  // ---------------------------------------------------------------- one counter

  /** A Visitors\LanguageLevelCounter's state: `$counters` keyed by level name, and `$hits`. */
  datatype LevelTally = LevelTally(counters: map<string, int>, hits: int)

  /** Every level has a count and `$hits` is their sum. */
  ghost predicate Sound(t: LevelTally)
  {
    VisitorCounter.Covers(t.counters) && t.hits == VisitorCounter.Total(t.counters)
  }

  /** `new LanguageLevelCounter()`: its reset on empty counts. */
  function NewTally(): LevelTally
  {
    LevelTally(VisitorCounter.ZeroedUpTo(map[], 13), 0)
  }

  /** reset's loop has set the names before position i to zero. */
  lemma {:induction false} ZeroedNames(m: map<string, int>, i: nat)
    requires i <= 13
    ensures forall j :: 0 <= j < i ==>
      Name(At(j)) in VisitorCounter.ZeroedUpTo(m, i) && VisitorCounter.ZeroedUpTo(m, i)[Name(At(j))] == 0
    decreases i
  {
    if i > 0 {
      ZeroedNames(m, i - 1);
    }
  }

  /** A new counter has every level at zero and no hits. */
  lemma NewTallyIsZero()
    ensures Sound(NewTally()) && NewTally().hits == 0
    ensures forall l: Level :: NewTally().counters[Name(l)] == 0
  {
    var zs := NewTally().counters;
    ZeroedNames(map[], 13);
    forall l: Level ensures Name(l) in zs && zs[Name(l)] == 0 {
      AtIndex(l);
    }
    VisitorCounter.ZeroTotal(zs, 0);
  }

  /** Hitting a list of levels adds its length to the sum of the counts. */
  lemma {:induction false} HitCountsTotal(m: map<string, int>, ls: seq<Level>)
    requires VisitorCounter.Covers(m)
    ensures VisitorCounter.Covers(VisitorCounter.HitCounts(m, ls))
    ensures VisitorCounter.Total(VisitorCounter.HitCounts(m, ls)) == VisitorCounter.Total(m) + |ls|
    decreases |ls|
  {
    if |ls| > 0 {
      var n := |ls| - 1;
      HitCountsTotal(m, ls[..n]);
      var before := VisitorCounter.HitCounts(m, ls[..n]);
      var l := ls[n];
      assert VisitorCounter.HitCounts(m, ls) == before[Name(l) := before[Name(l)] + 1];
      VisitorCounter.TotalAfterHit(before, l, 0);
      assert 0 <= Index(l);
    }
  }

  /**
   * hitRange(start, end): both must be levels (PHP's parameter types); a
   * start newer than end is range()'s exception; otherwise each level of
   * the range is hit once. Nothing changes when it throws.
   */
  function HitRange(t: LevelTally, start: Value, end: Value): (r: (LevelTally, Outcome))
    ensures r.1.Fail? ==> r.0 == t
  {
    if !start.Lvl? || !end.Lvl? then (t, Fail(TypeError))
    else
      var range := Range(start.level, end.level);
      if range.Err? then (t, Fail(range.error))
      else (LevelTally(VisitorCounter.HitCounts(t.counters, range.value), t.hits + |range.value|), Pass)
  }

  /**
   * A range whose start is not newer than its end raises the count of
   * every level from start to end by exactly one, leaves the others, and
   * adds the number of those levels to `$hits`.
   */
  lemma HitRangeCounts(t: LevelTally, start: Level, end: Level, l: Level)
    requires Sound(t) && Index(start) <= Index(end)
    ensures var r := HitRange(t, Lvl(start), Lvl(end));
      r.1 == Pass && Sound(r.0) && r.0.hits == t.hits + Index(end) - Index(start) + 1 &&
      r.0.counters[Name(l)] == t.counters[Name(l)] + if Index(start) <= Index(l) <= Index(end) then 1 else 0
  {
    RangeLength(start, end);
    HitCountsTotal(t.counters, Range(start, end).value);
    VisitorCounter.HitRangeCounts(t.counters, start, end, l);
  }

  /** A start newer than the end throws range()'s exception and counts nothing. */
  lemma HitRangeRefuses(t: LevelTally, start: Level, end: Level)
    requires Index(start) > Index(end)
    ensures HitRange(t, Lvl(start), Lvl(end)) == (t, Fail(RangeError(start, end)))
  {
  }

  // ---------------------------------------------------------------- the nested counters

  /** `$counters`: parent class name → sub node name → sub node class → counter. */
  type Counters = map<string, map<string, map<string, LevelTally>>>

  predicate Has(cs: Counters, c: string, s: string, k: string)
  {
    c in cs && s in cs[c] && k in cs[c][s]
  }

  /** The counter of a triple; one not created yet reads as a new counter. */
  function CounterAt(cs: Counters, c: string, s: string, k: string): LevelTally
  {
    if Has(cs, c, s, k) then cs[c][s][k] else NewTally()
  }

  /** The counters with the triple's counter set to t, creating the missing levels of the nesting. */
  function Put(cs: Counters, c: string, s: string, k: string, t: LevelTally): Counters
  {
    var bySlot := if c in cs then cs[c] else map[];
    var byClass := if s in bySlot then bySlot[s] else map[];
    cs[c := bySlot[s := byClass[k := t]]]
  }

  /** Setting one counter creates it and changes no other triple's counter. */
  lemma PutAt(cs: Counters, c: string, s: string, k: string, t: LevelTally, c': string, s': string, k': string)
    ensures Has(Put(cs, c, s, k, t), c', s', k') <==> (c', s', k') == (c, s, k) || Has(cs, c', s', k')
    ensures CounterAt(Put(cs, c, s, k, t), c', s', k') ==
      if (c', s', k') == (c, s, k) then t else CounterAt(cs, c', s', k')
  {
  }

  /** getCounter: the triple's counter, created on first use. */
  function GetCounterOf(cs: Counters, c: string, s: string, k: string): (Counters, LevelTally)
  {
    (Put(cs, c, s, k, CounterAt(cs, c, s, k)), CounterAt(cs, c, s, k))
  }

  /**
   * getCounter always leaves the triple with a counter: a new one the first
   * time, and otherwise the one already there, changing nothing.
   */
  lemma GetCounterCreates(cs: Counters, c: string, s: string, k: string)
    ensures Has(GetCounterOf(cs, c, s, k).0, c, s, k)
    ensures !Has(cs, c, s, k) ==> GetCounterOf(cs, c, s, k).1 == NewTally()
    ensures Has(cs, c, s, k) ==> GetCounterOf(cs, c, s, k) == (cs, cs[c][s][k])
  {
    if Has(cs, c, s, k) {
      assert cs[c][s][k := cs[c][s][k]] == cs[c][s];
      assert cs[c][s := cs[c][s]] == cs[c];
      assert cs[c := cs[c]] == cs;
    }
  }

  /** A second getCounter of the same triple returns the same counter and changes nothing. */
  lemma GetCounterSame(cs: Counters, c: string, s: string, k: string)
    ensures var got := GetCounterOf(cs, c, s, k);
      GetCounterOf(got.0, c, s, k) == got
  {
    var got := GetCounterOf(cs, c, s, k);
    GetCounterCreates(cs, c, s, k);
    GetCounterCreates(got.0, c, s, k);
    PutAt(cs, c, s, k, got.1, c, s, k);
  }

  /** Every counter, created or not, keeps its invariant. */
  ghost predicate AllSound(cs: Counters)
  {
    forall c, s, k :: Sound(CounterAt(cs, c, s, k))
  }

  lemma PutSound(cs: Counters, c: string, s: string, k: string, t: LevelTally)
    requires AllSound(cs) && Sound(t)
    ensures AllSound(Put(cs, c, s, k, t))
  {
    forall c', s', k' ensures Sound(CounterAt(Put(cs, c, s, k, t), c', s', k')) {
      PutAt(cs, c, s, k, t, c', s', k');
    }
  }

  // ---------------------------------------------------------------- hitSubNode

  /** The exception for an array in a slot whose definition is not an array one. */
  function ArrayRefused(parent: string, slot: string): Exception
  {
    InvalidArgumentException(
      "An array of sub nodes was provided, but this is not allowed by the sub node definition for \"" +
      parent + "\".\"" + slot + "\"")
  }

  /** The message names the parent class and the sub node. */
  lemma ArrayRefusedNames(parent: string, slot: string)
    ensures var msg := ArrayRefused(parent, slot).message;
      var at := |"An array of sub nodes was provided, but this is not allowed by the sub node definition for \""|;
      msg[at..at + |parent|] == parent && msg[at + |parent| + 3..at + |parent| + 3 + |slot|] == slot
  {
  }

  function InvalidType(): Exception
  {
    InvalidArgumentException("Invalid sub node type for given sub node definition")
  }

  /**
   * The class a single sub node is counted under: the pseudo classes for
   * null, int, float and string, a node's umbrella class from its
   * SuperclassInformation, and an exception for anything else.
   */
  function Classify(m: NodeMap, v: Value): Result<string>
  {
    match v
    case Null => Ok(NULL)
    case Int(_) => Ok(INT)
    case Float(_) => Ok(FLOAT)
    case Str(_) => Ok(STRING)
    case Obj(n) => SuperclassRegistrar.SuperclassOf(m, n.cls)
    case _ => Err(InvalidType())
  }

  /** The classification the visitor's mapping gives. */
  function Classifier(m: NodeMap): Value -> Result<string>
  {
    v => Classify(m, v)
  }

  /** `$x ?: $default` for a level default. */
  function OrElse(x: Value, default: Level): Value
  {
    if Falsy(x) then Lvl(default) else x
  }

  /** The levels a single sub node is hit over: a node's `from ?: OLDEST` to `to ?: NEWEST`, a scalar's OLDEST to NEWEST. */
  function Bounds(v: Value): (Value, Value)
  {
    if v.Obj? then (OrElse(GetAttribute(v.node, "from"), OLDEST), OrElse(GetAttribute(v.node, "to"), NEWEST))
    else (Lvl(OLDEST), Lvl(NEWEST))
  }

  /** A classified single sub node: getCounter creates its counter, then hitRange over its bounds. */
  function HitLeaf(cs: Counters, parent: string, slot: string, k: string, bounds: (Value, Value)): (r: (Counters, Outcome))
  {
    var got := GetCounterOf(cs, parent, slot, k);
    var h := HitRange(got.1, bounds.0, bounds.1);
    (Put(got.0, parent, slot, k, h.0), h.1)
  }

  /**
   * hitSubNode: an array needs an array definition and has each element hit
   * in turn (arrays inside it again); a single value is classified and its
   * counter hit over its bounds.
   */
  function HitSubNodeOf(classify: Value -> Result<string>, cs: Counters, parent: string, slot: string, v: Value, d: Definition): (Counters, Outcome)
    decreases v
  {
    if v.Arr? then
      if !d.isArray then (cs, Fail(ArrayRefused(parent, slot)))
      else HitItems(classify, cs, parent, slot, v.items, d)
    else
      var k := classify(v);
      if k.Err? then (cs, Fail(k.error))
      else HitLeaf(cs, parent, slot, k.value, Bounds(v))
  }

  /** The foreach over an array sub node, stopping at the first exception. */
  function HitItems(classify: Value -> Result<string>, cs: Counters, parent: string, slot: string, items: seq<Value>, d: Definition): (Counters, Outcome)
    decreases items
  {
    if |items| == 0 then (cs, Pass)
    else
      var first := HitSubNodeOf(classify, cs, parent, slot, items[0], d);
      if first.1.Fail? then first else HitItems(classify, first.0, parent, slot, items[1..], d)
  }

  /** leaveNode's foreach: hitSubNode on each declared slot's property value, in order. */
  function HitSlots(classify: Value -> Result<string>, cs: Counters, parent: string, node: Node, slots: seq<Slot>): (Counters, Outcome)
    decreases |slots|
  {
    if |slots| == 0 then (cs, Pass)
    else
      var first := HitSubNodeOf(classify, cs, parent, slots[0].name, Prop(node, slots[0].name), slots[0].definition);
      if first.1.Fail? then first else HitSlots(classify, first.0, parent, node, slots[1..])
  }

  /** leaveNode: the slots the node's exact class declares, each hit under the class's name. */
  function Leave(m: NodeMap, cs: Counters, node: Node): (Counters, Outcome)
    reads NodeCounting.InfoObjects(m)
  {
    var slots := NodeCounting.DeclaredSlots(m, node.cls);
    if slots.Err? then (cs, Fail(slots.error))
    else HitSlots(Classifier(m), cs, PhpClasses.ClassName(node.cls), node, slots.value)
  }

  // ---------------------------------------------------------------- what hitSubNode does

  /** An array in a slot that does not allow arrays throws, naming the parent and the slot, and counts nothing. */
  lemma ArrayNotAllowed(classify: Value -> Result<string>, cs: Counters, parent: string, slot: string, items: seq<Value>, d: Definition)
    requires !d.isArray
    ensures HitSubNodeOf(classify, cs, parent, slot, Arr(items), d) == (cs, Fail(ArrayRefused(parent, slot)))
  {
  }

  /** An array of one element is hit as that element; arrays nest. */
  lemma ArrayOfOne(classify: Value -> Result<string>, cs: Counters, parent: string, slot: string, x: Value, d: Definition)
    requires d.isArray
    ensures HitSubNodeOf(classify, cs, parent, slot, Arr([x]), d) == HitSubNodeOf(classify, cs, parent, slot, x, d)
  {
    var first := HitSubNodeOf(classify, cs, parent, slot, x, d);
    if first.1.Pass? {
      assert HitItems(classify, first.0, parent, slot, [x][1..], d) == (first.0, Pass);
    }
  }

  /** Hitting the elements of a + b is hitting those of a, then, unless that threw, those of b. */
  lemma {:induction false} HitItemsAppend(classify: Value -> Result<string>, cs: Counters, parent: string, slot: string, a: seq<Value>, b: seq<Value>, d: Definition)
    ensures var first := HitItems(classify, cs, parent, slot, a, d);
      HitItems(classify, cs, parent, slot, a + b, d) ==
        if first.1.Fail? then first else HitItems(classify, first.0, parent, slot, b, d)
    decreases |a|
  {
    if |a| > 0 {
      assert (a + b)[0] == a[0];
      assert (a + b)[1..] == a[1..] + b;
      var head := HitSubNodeOf(classify, cs, parent, slot, a[0], d);
      if head.1.Pass? {
        HitItemsAppend(classify, head.0, parent, slot, a[1..], b, d);
      }
    } else {
      assert a + b == b;
    }
  }

  /**
   * A classified single sub node whose from is not newer than its to is
   * counted under its class: each level from..to once more, the others
   * unchanged, and `$hits` up by the number of those levels.
   */
  lemma LeafCounted(cs: Counters, parent: string, slot: string, k: string, from: Level, to: Level, l: Level)
    requires AllSound(cs) && Index(from) <= Index(to)
    ensures var r := HitLeaf(cs, parent, slot, k, (Lvl(from), Lvl(to)));
      var t := CounterAt(r.0, parent, slot, k);
      r.1 == Pass && Has(r.0, parent, slot, k) && Sound(t) &&
      t.counters[Name(l)] == CounterAt(cs, parent, slot, k).counters[Name(l)] + (if Index(from) <= Index(l) <= Index(to) then 1 else 0) &&
      t.hits == CounterAt(cs, parent, slot, k).hits + Index(to) - Index(from) + 1
  {
    var t := CounterAt(cs, parent, slot, k);
    HitRangeCounts(t, from, to, l);
    var got := GetCounterOf(cs, parent, slot, k);
    PutAt(got.0, parent, slot, k, HitRange(t, Lvl(from), Lvl(to)).0, parent, slot, k);
  }

  /**
   * A classified single sub node whose from is newer than its to throws
   * range()'s exception after getCounter has created its counter, which
   * keeps its counts.
   */
  lemma LeafRefused(cs: Counters, parent: string, slot: string, k: string, from: Level, to: Level)
    requires Index(from) > Index(to)
    ensures HitLeaf(cs, parent, slot, k, (Lvl(from), Lvl(to))) ==
      (GetCounterOf(cs, parent, slot, k).0, Fail(RangeError(from, to)))
  {
    GetCounterSame(cs, parent, slot, k);
  }

  /** Null, ints, floats and strings are classified under their pseudo class; a node under its umbrella class. */
  lemma Classified(m: NodeMap, v: Value)
    ensures (v.Null? || v.Int? || v.Float? || v.Str?) <==> Classify(m, v).Ok? && Classify(m, v).value in [NULL, INT, FLOAT, STRING] && !v.Obj?
    ensures v.Obj? ==> Classify(m, v) == SuperclassRegistrar.SuperclassOf(m, v.node.cls)
    ensures (v.Bool? || v.Lvl?) ==> Classify(m, v) == Err(InvalidType())
  {
  }

  /** A classified scalar is counted over every level, OLDEST to NEWEST. */
  lemma ScalarCounted(classify: Value -> Result<string>, cs: Counters, parent: string, slot: string, v: Value, d: Definition, k: string, l: Level)
    requires v.Null? || v.Int? || v.Float? || v.Str?
    requires classify(v) == Ok(k) && AllSound(cs)
    ensures var r := HitSubNodeOf(classify, cs, parent, slot, v, d);
      r.1 == Pass && Sound(CounterAt(r.0, parent, slot, k)) &&
      CounterAt(r.0, parent, slot, k).counters[Name(l)] == CounterAt(cs, parent, slot, k).counters[Name(l)] + 1
  {
    Extremes(l);
    LeafCounted(cs, parent, slot, k, OLDEST, NEWEST, l);
  }

  /**
   * A classified node is counted over its from..to levels (an unset from
   * reads as OLDEST, an unset to as NEWEST), and throws range()'s exception
   * when from is newer than to.
   */
  lemma NodeCounted(classify: Value -> Result<string>, cs: Counters, parent: string, slot: string, n: Node, d: Definition, k: string, from: Level, to: Level, l: Level)
    requires classify(Obj(n)) == Ok(k) && AllSound(cs)
    requires Bounds(Obj(n)) == (Lvl(from), Lvl(to))
    ensures var r := HitSubNodeOf(classify, cs, parent, slot, Obj(n), d);
      (Index(from) <= Index(to) ==>
        r.1 == Pass && Sound(CounterAt(r.0, parent, slot, k)) &&
        CounterAt(r.0, parent, slot, k).counters[Name(l)] ==
          CounterAt(cs, parent, slot, k).counters[Name(l)] + (if Index(from) <= Index(l) <= Index(to) then 1 else 0)) &&
      (Index(from) > Index(to) ==>
        r == (GetCounterOf(cs, parent, slot, k).0, Fail(RangeError(from, to))))
  {
    if Index(from) <= Index(to) {
      LeafCounted(cs, parent, slot, k, from, to, l);
    } else {
      LeafRefused(cs, parent, slot, k, from, to);
    }
  }

  /** Only counters under the same parent and sub node change. */
  lemma {:induction false} HitSubNodeElsewhere(classify: Value -> Result<string>, cs: Counters, parent: string, slot: string, v: Value, d: Definition, c: string, s: string, k: string)
    requires (c, s) != (parent, slot)
    ensures CounterAt(HitSubNodeOf(classify, cs, parent, slot, v, d).0, c, s, k) == CounterAt(cs, c, s, k)
    decreases v
  {
    if v.Arr? {
      if d.isArray {
        HitItemsElsewhere(classify, cs, parent, slot, v.items, d, c, s, k);
      }
    } else if classify(v).Ok? {
      var kind := classify(v).value;
      var got := GetCounterOf(cs, parent, slot, kind);
      PutAt(cs, parent, slot, kind, got.1, c, s, k);
      PutAt(got.0, parent, slot, kind, HitRange(got.1, Bounds(v).0, Bounds(v).1).0, c, s, k);
    }
  }

  lemma {:induction false} HitItemsElsewhere(classify: Value -> Result<string>, cs: Counters, parent: string, slot: string, items: seq<Value>, d: Definition, c: string, s: string, k: string)
    requires (c, s) != (parent, slot)
    ensures CounterAt(HitItems(classify, cs, parent, slot, items, d).0, c, s, k) == CounterAt(cs, c, s, k)
    decreases items
  {
    if |items| > 0 {
      HitSubNodeElsewhere(classify, cs, parent, slot, items[0], d, c, s, k);
      var first := HitSubNodeOf(classify, cs, parent, slot, items[0], d);
      if first.1.Pass? {
        HitItemsElsewhere(classify, first.0, parent, slot, items[1..], d, c, s, k);
      }
    }
  }

  /** Every counter keeps its invariant through hitSubNode, whether it passes or throws. */
  lemma {:induction false} HitSubNodeSound(classify: Value -> Result<string>, cs: Counters, parent: string, slot: string, v: Value, d: Definition)
    requires AllSound(cs)
    ensures AllSound(HitSubNodeOf(classify, cs, parent, slot, v, d).0)
    decreases v
  {
    if v.Arr? {
      if d.isArray {
        HitItemsSound(classify, cs, parent, slot, v.items, d);
      }
    } else if classify(v).Ok? {
      LeafSound(cs, parent, slot, classify(v).value, Bounds(v));
    }
  }

  lemma {:induction false} HitItemsSound(classify: Value -> Result<string>, cs: Counters, parent: string, slot: string, items: seq<Value>, d: Definition)
    requires AllSound(cs)
    ensures AllSound(HitItems(classify, cs, parent, slot, items, d).0)
    decreases items
  {
    if |items| > 0 {
      HitSubNodeSound(classify, cs, parent, slot, items[0], d);
      var first := HitSubNodeOf(classify, cs, parent, slot, items[0], d);
      if first.1.Pass? {
        HitItemsSound(classify, first.0, parent, slot, items[1..], d);
      }
    }
  }

  /** A single classified sub node keeps every counter's invariant. */
  lemma LeafSound(cs: Counters, parent: string, slot: string, k: string, bounds: (Value, Value))
    requires AllSound(cs)
    ensures AllSound(HitLeaf(cs, parent, slot, k, bounds).0)
  {
    var got := GetCounterOf(cs, parent, slot, k);
    var t := got.1;
    assert Sound(t);
    PutSound(cs, parent, slot, k, t);
    var h := HitRange(t, bounds.0, bounds.1);
    if h.1.Pass? {
      HitCountsTotal(t.counters, Range(bounds.0.level, bounds.1.level).value);
    }
    PutSound(got.0, parent, slot, k, h.0);
  }

  /** leaveNode keeps every counter's invariant, whether it passes or throws. */
  lemma {:induction false} HitSlotsSound(classify: Value -> Result<string>, cs: Counters, parent: string, node: Node, slots: seq<Slot>)
    requires AllSound(cs)
    ensures AllSound(HitSlots(classify, cs, parent, node, slots).0)
    decreases |slots|
  {
    if |slots| > 0 {
      HitSubNodeSound(classify, cs, parent, slots[0].name, Prop(node, slots[0].name), slots[0].definition);
      var first := HitSubNodeOf(classify, cs, parent, slots[0].name, Prop(node, slots[0].name), slots[0].definition);
      if first.1.Pass? {
        HitSlotsSound(classify, first.0, parent, node, slots[1..]);
      }
    }
  }

  /** leaveNode only touches counters filed under the node's own class name. */
  lemma {:induction false} HitSlotsElsewhere(classify: Value -> Result<string>, cs: Counters, parent: string, node: Node, slots: seq<Slot>, c: string, s: string, k: string)
    requires c != parent
    ensures CounterAt(HitSlots(classify, cs, parent, node, slots).0, c, s, k) == CounterAt(cs, c, s, k)
    decreases |slots|
  {
    if |slots| > 0 {
      HitSubNodeElsewhere(classify, cs, parent, slots[0].name, Prop(node, slots[0].name), slots[0].definition, c, s, k);
      var first := HitSubNodeOf(classify, cs, parent, slots[0].name, Prop(node, slots[0].name), slots[0].definition);
      if first.1.Pass? {
        HitSlotsElsewhere(classify, first.0, parent, node, slots[1..], c, s, k);
      }
    }
  }

  /** A node whose class has no sub node information throws the mapping's exception and counts nothing. */
  lemma LeaveUnregistered(m: NodeMap, cs: Counters, node: Node)
    requires NodeCounting.DeclaredSlots(m, node.cls).Err?
    ensures Leave(m, cs, node) == (cs, Fail(NodeCounting.DeclaredSlots(m, node.cls).error))
  {
  }

  /** Bools and enum cases are not sub node types: hitSubNode throws and counts nothing. */
  lemma OtherTypesRefused(m: NodeMap, cs: Counters, parent: string, slot: string, v: Value, d: Definition)
    requires v.Bool? || v.Lvl?
    ensures HitSubNodeOf(Classifier(m), cs, parent, slot, v, d) == (cs, Fail(InvalidType()))
  {
  }

  // ---------------------------------------------------------------- the object

  class SubNodeLanguageLevelCountingVisitor {
    var counters: Counters

    /** A new visitor has no counters, as after beforeTraverse; the source leaves them unset until then. */
    constructor()
      ensures counters == map[]
    {
      counters := map[];
    }

    /** getCounters. */
    method GetCounters() returns (cs: Counters)
      ensures cs == counters
    {
      cs := counters;
    }

    /** beforeTraverse: forget every counter. */
    method BeforeTraverse()
      modifies this
      ensures counters == map[] && AllSound(counters)
    {
      NewTallyIsZero();
      counters := map[];
    }

    /** getCounter: create the missing levels of the nesting, then the counter itself on first use. */
    method GetCounter(c: string, s: string, k: string) returns (t: LevelTally)
      modifies this
      ensures (counters, t) == GetCounterOf(old(counters), c, s, k)
    {
      var bySlot := if c in counters then counters[c] else map[];
      var byClass := if s in bySlot then bySlot[s] else map[];
      if k !in byClass {
        byClass := byClass[k := NewTally()];
      } else {
        assert byClass[k := byClass[k]] == byClass;
      }
      t := byClass[k];
      counters := counters[c := bySlot[s := byClass]];
    }

    /** hitSubNode: arrays element by element, a single value under its class over its bounds. */
    method HitSubNode(m: NodeMap, parent: string, slot: string, v: Value, d: Definition) returns (r: Outcome)
      modifies this
      ensures (counters, r) == HitSubNodeOf(Classifier(m), old(counters), parent, slot, v, d)
      decreases v
    {
      if v.Arr? {
        if !d.isArray {
          return Fail(ArrayRefused(parent, slot));
        }
        var items := v.items;
        var i := 0;
        while i < |items|
          invariant 0 <= i <= |items|
          invariant HitItems(Classifier(m), old(counters), parent, slot, items, d) ==
            HitItems(Classifier(m), counters, parent, slot, items[i..], d)
        {
          assert items[i..][1..] == items[i + 1..];
          var o := HitSubNode(m, parent, slot, items[i], d);
          if o.Fail? {
            return o;
          }
          i := i + 1;
        }
        return Pass;
      }
      var k := Classify(m, v);
      if k.Err? {
        return Fail(k.error);
      }
      var t := GetCounter(parent, slot, k.value);
      var bounds := Bounds(v);
      var h := HitRange(t, bounds.0, bounds.1);
      counters := Put(counters, parent, slot, k.value, h.0);
      r := h.1;
    }

    /** leaveNode: hitSubNode on each slot the node's exact class declares. */
    method LeaveNode(m: NodeMap, node: Node) returns (r: Outcome)
      modifies this
      ensures (counters, r) == Leave(m, old(counters), node)
    {
      var found := NodeCounting.DeclaredSlots(m, node.cls);
      if found.Err? {
        return Fail(found.error);
      }
      var slots := found.value;
      var parent := PhpClasses.ClassName(node.cls);
      var i := 0;
      while i < |slots|
        invariant 0 <= i <= |slots|
        invariant HitSlots(Classifier(m), old(counters), parent, node, slots) ==
          HitSlots(Classifier(m), counters, parent, node, slots[i..])
      {
        assert slots[i..][1..] == slots[i + 1..];
        var o := HitSubNode(m, parent, slots[i].name, Prop(node, slots[i].name), slots[i].definition);
        if o.Fail? {
          return o;
        }
        i := i + 1;
      }
      return Pass;
    }
  }
}
