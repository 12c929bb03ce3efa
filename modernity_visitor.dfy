/**
 * Visitors\ModernityVisitor: one NodeCounter per node class met, in the
 * order the classes were first met, the number of nodes of each class
 * (`$encounters`) and of all nodes (`$hits`). Its tuple weighs each class's
 * tuple by the class's share of the nodes.
 */
module ModernityVisiting {
  import opened Wrappers
  import opened PhpClasses
  import opened PhpValues
  import opened LanguageLevelTuples
  import opened Registry
  import opened WeightedTuples
  import opened NodeCounting

  // ---------------------------------------------------------------- counting per key

  /** `$encounters[$c]`, where a missing key reads as 0 (null in arithmetic). */
  function Get<K>(f: map<K, nat>, c: K): nat
  {
    if c in f then f[c] else 0
  }

  /** No key listed twice: each key is missing from the keys before it. */
  predicate Distinct<K(==)>(cs: seq<K>)
    decreases |cs|
  {
    |cs| == 0 || (Distinct(cs[..|cs| - 1]) && cs[|cs| - 1] !in cs[..|cs| - 1])
  }

  /** The counts of the listed keys together. */
  function Total<K>(f: map<K, nat>, cs: seq<K>): nat
    decreases |cs|
  {
    if |cs| == 0 then 0 else Total(f, cs[..|cs| - 1]) + Get(f, cs[|cs| - 1])
  }

  /** Each listed key's count over the total: `$total > 0 ? $f[$c] / $total : 0`. */
  function Shares<K>(f: map<K, nat>, cs: seq<K>, total: nat): (r: seq<real>)
    ensures |r| == |cs| && forall i :: 0 <= i < |cs| ==> r[i] == Share(Get(f, cs[i]), total)
  {
    seq(|cs|, i requires 0 <= i < |cs| => Share(Get(f, cs[i]), total))
  }

  /** The parts of a fold: the i-th tuple with the i-th factor. */
  function Weigh(tuples: seq<seq<real>>, factors: seq<real>): (ps: seq<Part>)
    requires |tuples| == |factors| && forall i :: 0 <= i < |tuples| ==> Full(tuples[i])
    ensures |ps| == |tuples| && AllFull(ps)
    ensures forall i :: 0 <= i < |ps| ==> ps[i] == Part(tuples[i], factors[i])
  {
    seq(|tuples|, i requires 0 <= i < |tuples| => Part(tuples[i], factors[i]))
  }

  /** Adding one to a listed key's count adds one to the total; any other change leaves it. */
  lemma {:induction false} TotalBump<K>(f: map<K, nat>, cs: seq<K>, c: K, g: map<K, nat>)
    requires Distinct(cs)
    requires Get(g, c) == Get(f, c) + 1
    requires forall d :: d != c ==> Get(g, d) == Get(f, d)
    ensures Total(g, cs) == Total(f, cs) + (if c in cs then 1 else 0)
    decreases |cs|
  {
    if |cs| > 0 {
      var n := |cs| - 1;
      TotalBump(f, cs[..n], c, g);
      assert c in cs <==> c in cs[..n] || c == cs[n];
      assert c == cs[n] ==> c !in cs[..n];
    }
  }

  /** Setting one key's count leaves every other key's. */
  lemma GetUpdate<K>(f: map<K, nat>, g: map<K, nat>, c: K, x: nat)
    requires g == f || g == f[c := x]
    ensures forall d :: d != c ==> Get(g, d) == Get(f, d)
  {
  }

  /** The total reads only the counts of the keys it lists. */
  lemma {:induction false} TotalSame<K>(f: map<K, nat>, g: map<K, nat>, cs: seq<K>)
    requires forall c :: c in cs ==> Get(g, c) == Get(f, c)
    ensures Total(g, cs) == Total(f, cs)
    decreases |cs|
  {
    if |cs| > 0 {
      TotalSame(f, g, cs[..|cs| - 1]);
    }
  }

  /** The map's keys are exactly the listed keys. */
  ghost predicate SameKeys<K(!new), V>(f: map<K, V>, cs: seq<K>)
  {
    forall c :: c in f <==> c in cs
  }

  /** Listing a new key with a count of 0 keeps the list duplicate free, the keys and the total. */
  lemma ListedKeeps<K(!new), V>(cs: seq<K>, f: map<K, V>, e: map<K, nat>, c: K, x: V)
    requires Distinct(cs) && SameKeys(f, cs) && SameKeys(e, cs) && c !in cs
    ensures Distinct(cs + [c]) && SameKeys(f[c := x], cs + [c]) && SameKeys(e[c := 0], cs + [c])
    ensures Total(e[c := 0], cs + [c]) == Total(e, cs)
  {
    assert (cs + [c])[..|cs|] == cs;
    TotalSame(e, e[c := 0], cs);
  }

  /** The shares of the listed keys add up to the share of their total. */
  lemma {:induction false} SharesSum<K>(tuples: seq<seq<real>>, f: map<K, nat>, cs: seq<K>, total: nat)
    requires |tuples| == |cs| && forall i :: 0 <= i < |tuples| ==> Full(tuples[i])
    ensures FactorSum(Weigh(tuples, Shares(f, cs, total))) == Share(Total(f, cs), total)
    decreases |cs|
  {
    if |cs| > 0 {
      var n := |cs| - 1;
      assert Weigh(tuples, Shares(f, cs, total))[..n] == Weigh(tuples[..n], Shares(f, cs[..n], total));
      SharesSum(tuples[..n], f, cs[..n], total);
      AddShares(Total(f, cs[..n]), Get(f, cs[n]), total);
    }
  }

  // ---------------------------------------------------------------- the state, as values

  /**
   * The visitor's state: `$hits`, `$classNames`, `$counters` and
   * `$encounters`, keyed by class K; each NodeCounter is held as its state T.
   */
  datatype Visit<K, T> = Visit(hits: nat, classNames: seq<K>, counters: map<K, T>, encounters: map<K, nat>)

  /** beforeTraverse: nothing counted. */
  function Reset<K, T>(): Visit<K, T>
  {
    Visit(0, [], map[], map[])
  }

  /**
   * The visitor's books: each class listed once, exactly the listed classes
   * have a counter and an encounter count, and `$hits` is the encounters
   * together.
   */
  ghost predicate Books<K(!new), T>(v: Visit<K, T>)
  {
    Distinct(v.classNames) && SameKeys(v.counters, v.classNames) && SameKeys(v.encounters, v.classNames) &&
    v.hits == Total(v.encounters, v.classNames)
  }

  /** Every counter keeps its own invariant. */
  ghost predicate AllCounting<K(!new)>(counters: map<K, NodeTally>)
  {
    forall c :: c in counters ==> Counting(counters[c]) && Balanced(counters[c])
  }

  /** Replacing or adding a counter that keeps its invariant keeps every counter's. */
  lemma AllCountingUpdate<K(!new)>(counters: map<K, NodeTally>, c: K, n: NodeTally)
    requires AllCounting(counters) && Counting(n) && Balanced(n)
    ensures AllCounting(counters[c := n])
  {
  }

  /** What a visit keeps between nodes: its books, and every counter's invariant. */
  ghost predicate Visiting<K(!new)>(v: Visit<K, NodeTally>)
  {
    Books(v) && AllCounting(v.counters)
  }

  /** Every listed class has a counter that getTuple can read. */
  ghost predicate Tupled<K>(v: Visit<K, NodeTally>)
  {
    forall c :: c in v.classNames ==> c in v.counters && Aligned(v.counters[c])
  }

  /**
   * leaveNode up to the hit: count the node, list its class and give it a
   * new counter when it is new (`made`: the new counter, or what its
   * constructor throws, after the class was listed); a listed class with
   * no counter (its constructor threw earlier) throws when hit.
   */
  function Admit<K(==), T>(v: Visit<K, T>, c: K, made: Result<T>): (r: (Visit<K, T>, Outcome))
    ensures r.1.Pass? ==> c in r.0.counters
  {
    var counted := v.(hits := v.hits + 1);
    if c in v.classNames then
      if c in v.counters then (counted, Pass) else (counted, Fail(PhpError))   // hit() called on null
    else
      var listed := counted.(classNames := v.classNames + [c]);
      if made.Err? then (listed, Fail(made.error))
      else (listed.(counters := listed.counters[c := made.value], encounters := listed.encounters[c := 0]), Pass)
  }

  /** The class's counter takes its state after the hit h and, when the hit passed, `$encounters[$c]++`. */
  function Credit<K, T>(v: Visit<K, T>, c: K, h: (T, Outcome)): (r: (Visit<K, T>, Outcome))
  {
    var hit := v.(counters := v.counters[c := h.0]);
    if h.1.Fail? then (hit, h.1)
    else (hit.(encounters := hit.encounters[c := Get(v.encounters, c) + 1]), Pass)
  }

  /** leaveNode, given the hit's result: admit the node, then credit the hit unless admitting threw. */
  function Step<K(==), T>(v: Visit<K, T>, c: K, made: Result<T>, h: (T, Outcome)): (Visit<K, T>, Outcome)
  {
    var a := Admit(v, c, made);
    if a.1.Fail? then a else Credit(a.0, c, h)
  }

  /** `new NodeCounter($className)`: a new counter for the class's slots, or what the mapping throws. */
  function Made(m: NodeMap, c: Cls): (r: Result<NodeTally>)
    reads InfoObjects(m)
    ensures r.Err? <==> DeclaredSlots(m, c).Err?
    ensures r.Ok? ==> r.value == Started(DeclaredSlots(m, c).value)
  {
    var slots := DeclaredSlots(m, c);
    if slots.Err? then Err(slots.error) else Ok(Started(slots.value))
  }

  /** leaveNode. */
  function Leave(m: NodeMap, v: Visit<Cls, NodeTally>, node: Node): (r: (Visit<Cls, NodeTally>, Outcome))
    reads InfoObjects(m)
    requires forall c :: c in v.counters ==> Aligned(v.counters[c])
  {
    var c := node.cls;
    var a := Admit(v, c, Made(m, c));
    if a.1.Fail? then a else Credit(a.0, c, HitNode(m, a.0.counters[c], node))
  }

  /** getTuple's tuples: each class's tuple, in first-seen order. */
  function ClassTuples<K>(v: Visit<K, NodeTally>): (ts: seq<seq<real>>)
    requires Tupled(v)
    ensures |ts| == |v.classNames| && forall i :: 0 <= i < |ts| ==> Full(ts[i])
  {
    seq(|v.classNames|, i requires 0 <= i < |v.classNames| => NodeTupleOf(v.counters[v.classNames[i]]))
  }

  /** getTuple's terms: each class's tuple weighted by its encounters over `$hits`. */
  function Parts<K>(v: Visit<K, NodeTally>): seq<Part>
    requires Tupled(v)
  {
    Weigh(ClassTuples(v), Shares(v.encounters, v.classNames, v.hits))
  }

  /** getTuple. */
  function VisitTupleOf<K>(v: Visit<K, NodeTally>): (t: seq<real>)
    requires Tupled(v)
    ensures Full(t)
  {
    WeightedSum(Parts(v))
  }

  // ---------------------------------------------------------------- lemmas

  /** beforeTraverse leaves a state every later leaveNode keeps, whose tuple is all zeros. */
  lemma ResetVisiting<K(!new)>()
    ensures Visiting(Reset<K, NodeTally>()) && VisitTupleOf(Reset<K, NodeTally>()) == Zero()
  {
    assert Parts(Reset<K, NodeTally>()) == [];
  }

  /**
   * When admitting a node passes, its class is listed once and has a
   * counter, and the books hold with `$hits` one ahead of the encounters.
   */
  lemma AdmitBooks<K(!new), T>(v: Visit<K, T>, c: K, made: Result<T>)
    requires Books(v)
    ensures var a := Admit(v, c, made);
      a.1.Pass? ==>
        Distinct(a.0.classNames) && SameKeys(a.0.counters, a.0.classNames) &&
        SameKeys(a.0.encounters, a.0.classNames) && a.0.hits == Total(a.0.encounters, a.0.classNames) + 1
  {
    var a := Admit(v, c, made);
    if c !in v.classNames && a.1.Pass? {
      ListedKeeps(v.classNames, v.counters, v.encounters, c, made.value);
    }
  }

  /** Crediting a passing hit to the admitted class brings `$hits` and the encounters level again. */
  lemma CreditBooks<K(!new), T>(v: Visit<K, T>, c: K, h: (T, Outcome))
    requires Distinct(v.classNames) && SameKeys(v.counters, v.classNames) && SameKeys(v.encounters, v.classNames)
    requires c in v.counters && v.hits == Total(v.encounters, v.classNames) + 1
    ensures var r := Credit(v, c, h);
      r.1 == h.1 && r.0.hits == v.hits && r.0.classNames == v.classNames &&
      (r.1.Fail? ==> r.0.encounters == v.encounters) &&
      (r.1.Pass? ==> r.0.encounters == v.encounters[c := Get(v.encounters, c) + 1] && Books(r.0))
  {
    var r := Credit(v, c, h);
    if r.1.Pass? {
      TotalBump(v.encounters, v.classNames, c, r.0.encounters);
    }
  }

  /**
   * What leaveNode promises about the counts, from state v to the result r,
   * for a node of class c: the node is counted in `$hits` whatever happens
   * and its class is listed once; when it passes the node is counted in its
   * class's encounters. No other class's count changes either way.
   */
  ghost predicate Counted<K(!new), T>(v: Visit<K, T>, c: K, r: (Visit<K, T>, Outcome))
  {
    r.0.hits == v.hits + 1 &&
    r.0.classNames == (if c in v.classNames then v.classNames else v.classNames + [c]) &&
    (forall d :: d != c ==> Get(r.0.encounters, d) == Get(v.encounters, d)) &&
    (r.1.Pass? ==> Get(r.0.encounters, c) == Get(v.encounters, c) + 1)
  }

  /** Admitting, then crediting whatever the hit does, is counted (a class not yet listed has no encounter count). */
  lemma StepCounted<K(!new), T>(v: Visit<K, T>, c: K, made: Result<T>, h: (T, Outcome))
    requires c !in v.classNames ==> c !in v.encounters
    ensures Counted(v, c, Step(v, c, made, h))
  {
    var a := Admit(v, c, made);
    assert Get(a.0.encounters, c) == Get(v.encounters, c);
    GetUpdate(v.encounters, a.0.encounters, c, 0);
    if a.1.Pass? {
      var r := Credit(a.0, c, h);
      GetUpdate(a.0.encounters, r.0.encounters, c, Get(a.0.encounters, c) + 1);
    }
  }

  /** A step that passes leaves the books in order. */
  lemma StepBooks<K(!new), T>(v: Visit<K, T>, c: K, made: Result<T>, h: (T, Outcome))
    requires Books(v)
    ensures Step(v, c, made, h).1.Pass? ==> Books(Step(v, c, made, h).0)
  {
    AdmitBooks(v, c, made);
    var a := Admit(v, c, made);
    if a.1.Pass? {
      CreditBooks(a.0, c, h);
    }
  }

  /** Admitting a counter that keeps its invariant, then crediting a hit that keeps it, keeps every counter's. */
  lemma StepCounting<K(!new)>(v: Visit<K, NodeTally>, c: K, made: Result<NodeTally>, h: (NodeTally, Outcome))
    requires AllCounting(v.counters)
    requires made.Ok? ==> Counting(made.value) && Balanced(made.value)
    requires Counting(h.0) && (h.1.Pass? ==> Balanced(h.0))
    ensures Step(v, c, made, h).1.Pass? ==> AllCounting(Step(v, c, made, h).0.counters)
  {
    var a := Admit(v, c, made);
    if a.1.Pass? {
      var admitted := if c in v.classNames then v.counters else v.counters[c := made.value];
      if c !in v.classNames {
        AllCountingUpdate(v.counters, c, made.value);
      }
      assert a.0.counters == admitted;
      if h.1.Pass? {
        AllCountingUpdate(admitted, c, h.0);
      }
    }
  }

  /** A new counter keeps its invariant: the registered slots are normal. */
  lemma MadeCounts(m: NodeMap, c: Cls)
    requires NormalSlots(m)
    ensures Made(m, c).Ok? ==> Counting(Made(m, c).value) && Balanced(Made(m, c).value)
  {
    if Made(m, c).Ok? {
      StartedCounts(DeclaredSlots(m, c).value);
    }
  }

  /** leaveNode is counted. */
  lemma LeaveCounts(m: NodeMap, v: Visit<Cls, NodeTally>, node: Node)
    requires NormalSlots(m) && Visiting(v)
    ensures Counted(v, node.cls, Leave(m, v, node))
  {
    var c := node.cls;
    var made := Made(m, c);
    var a := Admit(v, c, made);
    if a.1.Pass? {
      var h := HitNode(m, a.0.counters[c], node);
      assert Leave(m, v, node) == Step(v, c, made, h);
      StepCounted(v, c, made, h);
    } else {
      assert Leave(m, v, node) == Step(v, c, made, (Started([]), Pass));
      StepCounted(v, c, made, (Started([]), Pass));
    }
  }

  /** A passing leaveNode keeps the visit's invariant. */
  lemma LeaveKeepsVisiting(m: NodeMap, v: Visit<Cls, NodeTally>, node: Node)
    requires NormalSlots(m) && Visiting(v)
    ensures Leave(m, v, node).1.Pass? ==> Visiting(Leave(m, v, node).0)
  {
    var c := node.cls;
    var made := Made(m, c);
    MadeCounts(m, c);
    var a := Admit(v, c, made);
    if a.1.Pass? {
      var n := a.0.counters[c];
      assert Counting(n) && Balanced(n);
      HitNodeCounts(m, n, node);
      var h := HitNode(m, n, node);
      assert Leave(m, v, node) == Step(v, c, made, h);
      StepBooks(v, c, made, h);
      StepCounting(v, c, made, h);
    }
  }

  /** leaveNode is counted and, when it passes, keeps the visit's invariant. */
  lemma LeaveStep(m: NodeMap, v: Visit<Cls, NodeTally>, node: Node)
    requires NormalSlots(m) && Visiting(v)
    ensures Counted(v, node.cls, Leave(m, v, node))
    ensures Leave(m, v, node).1.Pass? ==> Visiting(Leave(m, v, node).0)
  {
    LeaveCounts(m, v, node);
    LeaveKeepsVisiting(m, v, node);
  }

  // ---------------------------------------------------------------- a whole traversal

  /** leaveNode on each node in turn, up to the first that throws. */
  function LeaveAll(m: NodeMap, v: Visit<Cls, NodeTally>, nodes: seq<Node>): (r: (Visit<Cls, NodeTally>, Outcome))
    reads InfoObjects(m)
    requires NormalSlots(m) && Visiting(v)
    decreases |nodes|
  {
    if |nodes| == 0 then (v, Pass)
    else
      LeaveKeepsVisiting(m, v, nodes[0]);
      var step := Leave(m, v, nodes[0]);
      if step.1.Fail? then step else LeaveAll(m, step.0, nodes[1..])
  }

  /** The classes of the nodes, in order. */
  function Classes(nodes: seq<Node>): seq<Cls>
    decreases |nodes|
  {
    if |nodes| == 0 then [] else [nodes[0].cls] + Classes(nodes[1..])
  }

  /** The keys in the order they are first met, after those already listed. */
  function FirstSeen<K(==)>(names: seq<K>, keys: seq<K>): seq<K>
    decreases |keys|
  {
    if |keys| == 0 then names
    else FirstSeen(if keys[0] in names then names else names + [keys[0]], keys[1..])
  }

  /** How many of the keys are c. */
  function CountOf<K(==)>(keys: seq<K>, c: K): nat
    decreases |keys|
  {
    if |keys| == 0 then 0 else (if keys[0] == c then 1 else 0) + CountOf(keys[1..], c)
  }

  /** A traversal whose every leaveNode passes keeps the visit's invariant. */
  lemma {:induction false} LeaveAllKeepsVisiting(m: NodeMap, v: Visit<Cls, NodeTally>, nodes: seq<Node>)
    requires NormalSlots(m) && Visiting(v)
    ensures LeaveAll(m, v, nodes).1.Pass? ==> Visiting(LeaveAll(m, v, nodes).0)
    decreases |nodes|
  {
    if |nodes| > 0 {
      LeaveKeepsVisiting(m, v, nodes[0]);
      var step := Leave(m, v, nodes[0]);
      if step.1.Pass? {
        LeaveAllKeepsVisiting(m, step.0, nodes[1..]);
      }
    }
  }

  /** A traversal whose every leaveNode passes counts every node in `$hits`. */
  lemma {:induction false} LeaveAllHits(m: NodeMap, v: Visit<Cls, NodeTally>, nodes: seq<Node>)
    requires NormalSlots(m) && Visiting(v)
    ensures LeaveAll(m, v, nodes).1.Pass? ==> LeaveAll(m, v, nodes).0.hits == v.hits + |nodes|
    decreases |nodes|
  {
    if |nodes| > 0 {
      LeaveStep(m, v, nodes[0]);
      var step := Leave(m, v, nodes[0]);
      if step.1.Pass? {
        LeaveAllHits(m, step.0, nodes[1..]);
      }
    }
  }

  /** A traversal whose every leaveNode passes lists the classes in the order they were first met. */
  lemma {:induction false} LeaveAllNames(m: NodeMap, v: Visit<Cls, NodeTally>, nodes: seq<Node>)
    requires NormalSlots(m) && Visiting(v)
    ensures LeaveAll(m, v, nodes).1.Pass? ==>
      LeaveAll(m, v, nodes).0.classNames == FirstSeen(v.classNames, Classes(nodes))
    decreases |nodes|
  {
    if |nodes| > 0 {
      LeaveStep(m, v, nodes[0]);
      var step := Leave(m, v, nodes[0]);
      if step.1.Pass? {
        LeaveAllNames(m, step.0, nodes[1..]);
      }
    }
  }

  /** One encounter of c followed by the encounters of `rest` are the encounters of c then `rest`. */
  lemma EncountersThen<K>(e0: map<K, nat>, e1: map<K, nat>, e2: map<K, nat>, c: K, rest: seq<K>)
    requires forall d :: d != c ==> Get(e1, d) == Get(e0, d)
    requires Get(e1, c) == Get(e0, c) + 1
    requires forall d :: Get(e2, d) == Get(e1, d) + CountOf(rest, d)
    ensures forall d :: Get(e2, d) == Get(e0, d) + CountOf([c] + rest, d)
  {
    assert ([c] + rest)[1..] == rest;
  }

  /** A traversal whose every leaveNode passes counts each node in its class's `$encounters`. */
  lemma {:induction false} LeaveAllEncounters(m: NodeMap, v: Visit<Cls, NodeTally>, nodes: seq<Node>)
    requires NormalSlots(m) && Visiting(v)
    ensures var r := LeaveAll(m, v, nodes);
      r.1.Pass? ==> forall c :: Get(r.0.encounters, c) == Get(v.encounters, c) + CountOf(Classes(nodes), c)
    decreases |nodes|
  {
    if |nodes| > 0 {
      LeaveStep(m, v, nodes[0]);
      var step := Leave(m, v, nodes[0]);
      if step.1.Pass? {
        LeaveAllEncounters(m, step.0, nodes[1..]);
        var rest := LeaveAll(m, step.0, nodes[1..]);
        if rest.1.Pass? {
          EncountersThen(v.encounters, step.0.encounters, rest.0.encounters, nodes[0].cls, Classes(nodes[1..]));
        }
      }
    }
  }

  /** The first-seen list holds each class once: those already listed and those of the nodes. */
  lemma {:induction false} FirstSeenDistinct<K>(names: seq<K>, keys: seq<K>)
    requires Distinct(names)
    ensures Distinct(FirstSeen(names, keys))
    ensures forall c :: c in FirstSeen(names, keys) <==> c in names || CountOf(keys, c) > 0
    decreases |keys|
  {
    if |keys| > 0 {
      var next := if keys[0] in names then names else names + [keys[0]];
      FirstSeenDistinct(next, keys[1..]);
    }
  }

  /**
   * During a visit the class weights add up to 1 once a node was left (0
   * before), and every entry of the tuple lies between 0 and 1.
   */
  lemma VisitTupleBounded<K(!new)>(v: Visit<K, NodeTally>)
    requires Visiting(v)
    ensures Tupled(v)
    ensures FactorSum(Parts(v)) == if v.hits > 0 then 1.0 else 0.0
    ensures UnitBounded(VisitTupleOf(v))
  {
    var ts := ClassTuples(v);
    var ps := Parts(v);
    SharesSum(ts, v.encounters, v.classNames, v.hits);
    ShareOfWhole(v.hits);
    forall i | 0 <= i < |ps| ensures NonNegative(ps[i].values) && 0.0 <= ps[i].factor {
      NodeTupleBounded(v.counters[v.classNames[i]]);
    }
    WeightedSumBounds(ps);
  }

  // ---------------------------------------------------------------- the object

  class ModernityVisitor {
    var hits: nat
    var classNames: seq<Cls>
    /** Each class's NodeCounter, held as its state. */
    var counters: map<Cls, NodeTally>
    var encounters: map<Cls, nat>

    function State(): Visit<Cls, NodeTally>
      reads this
    {
      Visit(hits, classNames, counters, encounters)
    }

    ghost predicate Valid()
      reads this
    {
      Visiting(State())
    }

    constructor()
      ensures State() == Reset<Cls, NodeTally>() && Valid()
    {
      hits := 0;
      classNames := [];
      counters := map[];
      encounters := map[];
    }

    /** beforeTraverse: forget every count. */
    method BeforeTraverse()
      modifies this
      ensures State() == Reset<Cls, NodeTally>() && Valid()
    {
      hits := 0;
      classNames := [];
      counters := map[];
      encounters := map[];
    }

    /** leaveNode: admit the node, then hit its class's counter unless admitting threw. */
    method LeaveNode(m: NodeMap, node: Node) returns (r: Outcome)
      requires NormalSlots(m) && Valid()
      modifies this
      ensures (State(), r) == Leave(m, old(State()), node)
      ensures r.Pass? ==> Valid()
    {
      LeaveKeepsVisiting(m, State(), node);
      r := AdmitNode(m, node.cls);
      if r.Pass? {
        r := CreditHit(m, node);
      }
    }

    /** leaveNode up to the hit: `$hits++`, and a new class is listed and given a counter. */
    method AdmitNode(m: NodeMap, c: Cls) returns (r: Outcome)
      modifies this
      ensures (State(), r) == Admit(old(State()), c, Made(m, c))
    {
      hits := hits + 1;
      if c !in classNames {
        classNames := classNames + [c];
        var made := Made(m, c);
        if made.Err? {
          return Fail(made.error);
        }
        counters := counters[c := made.value];
        encounters := encounters[c := 0];
        return Pass;
      }
      r := if c in counters then Pass else Fail(PhpError);
    }

    /** The hit on the node's counter and, when it passes, `$encounters[$c]++`. */
    method CreditHit(m: NodeMap, node: Node) returns (r: Outcome)
      requires node.cls in counters && Aligned(counters[node.cls])
      modifies this
      ensures (State(), r) == Credit(old(State()), node.cls, HitNode(m, old(counters[node.cls]), node))
    {
      var c := node.cls;
      var h := HitNode(m, counters[c], node);
      counters := counters[c := h.0];
      if h.1.Fail? {
        return h.1;
      }
      encounters := encounters[c := Get(encounters, c) + 1];
      return Pass;
    }

    /** getTuple: each class's tuple normalized and weighted by its encounters over `$hits`; changes nothing. */
    method GetTuple() returns (t: seq<real>)
      requires Tupled(State())
      ensures t == VisitTupleOf(State())
    {
      ghost var ps := Parts(State());
      t := Zero();
      for i := 0 to |classNames|
        invariant t == WeightedSum(ps[..i])
      {
        var c := classNames[i];
        var tuple := NodeTupleOf(counters[c]);
        var share := if hits > 0 then Get(encounters, c) as real / hits as real else 0.0;
        assert ps[i] == Part(tuple, share);
        assert ps[..i + 1][..i] == ps[..i];
        t := Sum(t, Scaled(Normalized(tuple), share));
      }
      assert ps[..|classNames|] == ps;
    }
  }
}
