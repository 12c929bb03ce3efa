/**
 * Data\NodeCounter: for one node class, one SubNodeCounter per sub node
 * slot its SubNodeInformation declares, and `$subNodesEncountered`, the
 * number of sub node values those counters accepted. Its tuple weighs each
 * slot's tuple by the slot's share of those values.
 */
module NodeCounting {
  import opened Wrappers
  import opened PhpClasses
  import opened PhpValues
  import opened LanguageLevelTuples
  import opened SubNodeDefinitions
  import opened Registry
  import opened WeightedTuples
  import opened SubNodeCounting

  // ---------------------------------------------------------------- the slots of a class

  /** The SubNodeInformation objects registered in the mapping. */
  function InfoObjects(m: NodeMap): set<SubNodeInformation>
  {
    set c | c in m && SubNodeType in m[c] && m[c][SubNodeType].SubNodes? :: m[c][SubNodeType].subNodes
  }

  /** `get($name, SubNodeInformation::class)->getSubNodeDefinitions()`, with get's errors. */
  function DeclaredSlots(m: NodeMap, c: Cls): (r: Result<seq<Slot>>)
    reads InfoObjects(m)
    ensures Registry.Lookup(m, c, SubNodeType).Err? ==> r == Err(Registry.Lookup(m, c, SubNodeType).error)
    ensures r.Ok? <==> Registry.Lookup(m, c, SubNodeType).Ok? && Registry.Lookup(m, c, SubNodeType).value.SubNodes?
    ensures r.Ok? ==> r.value == Registry.Lookup(m, c, SubNodeType).value.subNodes.slots
  {
    var found := Registry.Lookup(m, c, SubNodeType);
    if found.Err? then Err(found.error)
    else if found.value.SubNodes? then Ok(found.value.subNodes.slots)
    else Err(PhpError)
  }

  /** Every class registered with sub node information has normal slots. */
  predicate NormalSlots(m: NodeMap)
    reads InfoObjects(m)
  {
    forall c :: c in m ==> DeclaredSlots(m, c).Ok? ==> Normal(DeclaredSlots(m, c).value)
  }

  // ---------------------------------------------------------------- the state, as values

  /** The counter's state: its slots, each slot's SubNodeCounter state, `$subNodesEncountered`. */
  datatype NodeTally = NodeTally(slots: seq<Slot>, tallies: seq<Tally>, encountered: nat)

  /** One counter per slot, each with one counter per class its definition accepts. */
  ghost predicate Aligned(n: NodeTally)
  {
    |n.tallies| == |n.slots| &&
    forall i :: 0 <= i < |n.slots| ==> Shaped(n.slots[i].definition, n.tallies[i])
  }

  /** Aligned, and every slot's counter keeps its own invariant. */
  ghost predicate Counting(n: NodeTally)
  {
    Aligned(n) && Normal(n.slots) &&
    forall i :: 0 <= i < |n.slots| ==> Tracks(n.slots[i].definition, n.tallies[i])
  }

  /** The hits of all the slot counters together. */
  function HitSum(ts: seq<Tally>): nat
    decreases |ts|
  {
    if |ts| == 0 then 0 else HitSum(ts[..|ts| - 1]) + ts[|ts| - 1].hits
  }

  /** `$subNodesEncountered` is exactly the slot counters' hits together. */
  predicate Balanced(n: NodeTally)
  {
    n.encountered == HitSum(n.tallies)
  }

  /** The constructor: a fresh SubNodeCounter per slot, nothing encountered. */
  function Started(slots: seq<Slot>): (n: NodeTally)
    ensures n.slots == slots && |n.tallies| == |slots| && n.encountered == 0
    ensures forall i :: 0 <= i < |slots| ==> n.tallies[i] == Start(slots[i].definition)
    ensures Aligned(n)
  {
    NodeTally(slots, seq(|slots|, i requires 0 <= i < |slots| => Start(slots[i].definition)), 0)
  }

  /**
   * What each slot's counter does with the node's property of the slot's
   * name: its state after `hit` and what `hit` returns or throws.
   */
  function SlotHits(m: NodeMap, n: NodeTally, node: Node): (hs: seq<(Tally, Result<nat>)>)
    requires Aligned(n)
    ensures |hs| == |n.slots|
    ensures forall k :: 0 <= k < |hs| ==> Shaped(n.slots[k].definition, hs[k].0)
  {
    seq(|n.slots|, k requires 0 <= k < |n.slots| =>
      HitValue(m, n.slots[k].definition, n.tallies[k], Prop(node, n.slots[k].name)))
  }

  /**
   * The loop of hit from slot i on: each slot's counter takes its hit and
   * what it returns is added to `$subNodesEncountered`; an exception stops
   * the loop, with that counter's partial hits kept and nothing added for it.
   */
  function HitFrom(n: NodeTally, hs: seq<(Tally, Result<nat>)>, i: nat): (r: (NodeTally, Outcome))
    requires i <= |n.slots| == |n.tallies| == |hs|
    ensures r.0.slots == n.slots && |r.0.tallies| == |n.tallies|
    ensures forall j :: 0 <= j < i ==> r.0.tallies[j] == n.tallies[j]
    decreases |n.slots| - i
  {
    if i == |n.slots| then (n, Pass)
    else
      var next := n.(tallies := n.tallies[i := hs[i].0]);
      if hs[i].1.Err? then (next, Fail(hs[i].1.error))
      else HitFrom(next.(encountered := n.encountered + hs[i].1.value), hs, i + 1)
  }

  /** hit: every slot, in declaration order. */
  function HitNode(m: NodeMap, n: NodeTally, node: Node): (r: (NodeTally, Outcome))
    requires Aligned(n)
    ensures r.0.slots == n.slots && |r.0.tallies| == |n.tallies|
  {
    HitFrom(n, SlotHits(m, n, node), 0)
  }

  /** What SubNodeCounter's hit promises about `$hits`: they only grow, by what it returns. */
  predicate Grows(before: Tally, h: (Tally, Result<nat>))
  {
    before.hits <= h.0.hits && (h.1.Ok? ==> h.0.hits == before.hits + h.1.value)
  }

  /** The slot counters' tuples, in slot order. */
  function SubTuples(n: NodeTally): (r: seq<seq<real>>)
    requires Aligned(n)
    ensures |r| == |n.slots| && forall i :: 0 <= i < |r| ==> Full(r[i])
  {
    seq(|n.slots|, i requires 0 <= i < |n.slots| => TupleOf(n.slots[i].definition, n.tallies[i]))
  }

  /** getTuple's terms: each slot's tuple, weighted by the slot's hits over the total. */
  function Weighted(tuples: seq<seq<real>>, tallies: seq<Tally>, total: int): (ps: seq<Part>)
    requires |tallies| == |tuples| && forall i :: 0 <= i < |tuples| ==> Full(tuples[i])
    ensures |ps| == |tuples| && AllFull(ps)
    ensures forall i :: 0 <= i < |tuples| ==> ps[i] == Part(tuples[i], Share(tallies[i].hits, total))
  {
    seq(|tuples|, i requires 0 <= i < |tuples| => Part(tuples[i], Share(tallies[i].hits, total)))
  }

  /** getTuple. */
  function NodeTupleOf(n: NodeTally): seq<real>
    requires Aligned(n)
  {
    WeightedSum(Weighted(SubTuples(n), n.tallies, n.encountered))
  }

  // ---------------------------------------------------------------- lemmas

  /** Replacing one counter changes the hits together by the difference. */
  lemma {:induction false} HitSumUpdate(ts: seq<Tally>, i: nat, t: Tally)
    requires i < |ts|
    ensures HitSum(ts[i := t]) as int == HitSum(ts) as int - ts[i].hits as int + t.hits as int
    decreases |ts|
  {
    var n := |ts| - 1;
    if i < n {
      assert ts[i := t][..n] == ts[..n][i := t];
      HitSumUpdate(ts[..n], i, t);
    } else {
      assert ts[i := t][..n] == ts[..n];
    }
  }

  /** A new counter is aligned, keeps every invariant and has encountered nothing. */
  lemma StartedCounts(slots: seq<Slot>)
    requires Normal(slots)
    ensures Counting(Started(slots)) && Balanced(Started(slots))
    ensures NodeTupleOf(Started(slots)) == Zero()
  {
    var n := Started(slots);
    forall i | 0 <= i < |slots| ensures Tracks(slots[i].definition, n.tallies[i]) {
      StartTracks(slots[i].definition);
    }
    HitSumZero(n.tallies);
    WeightedSumOfZeroFactors(Weighted(SubTuples(n), n.tallies, 0));
  }

  lemma {:induction false} HitSumZero(ts: seq<Tally>)
    requires forall i :: 0 <= i < |ts| ==> ts[i].hits == 0
    ensures HitSum(ts) == 0
    decreases |ts|
  {
    if |ts| > 0 {
      HitSumZero(ts[..|ts| - 1]);
    }
  }

  /** Slot k's entry of SlotHits is what slot k's counter does with the node's property of its name. */
  lemma SlotHitsAt(m: NodeMap, n: NodeTally, node: Node, k: nat)
    requires Aligned(n) && k < |n.slots|
    ensures SlotHits(m, n, node)[k] ==
      HitValue(m, n.slots[k].definition, n.tallies[k], Prop(node, n.slots[k].name))
  {
  }

  /** Every slot's counter, hit on its own property, keeps its invariant and reports its hits. */
  lemma SlotHitsStep(m: NodeMap, n: NodeTally, node: Node)
    requires Counting(n)
    ensures forall k :: 0 <= k < |n.slots| ==> Tracks(n.slots[k].definition, SlotHits(m, n, node)[k].0)
    ensures forall k :: 0 <= k < |n.slots| ==> Grows(n.tallies[k], SlotHits(m, n, node)[k])
  {
    var hs := SlotHits(m, n, node);
    forall k | 0 <= k < |n.slots|
      ensures Tracks(n.slots[k].definition, hs[k].0) && Grows(n.tallies[k], hs[k])
    {
      var v := Prop(node, n.slots[k].name);
      SlotHitsAt(m, n, node, k);
      HitValueTracks(m, n.slots[k].definition, n.tallies[k], v);
      HitValueReturnsCount(m, n.slots[k].definition, n.tallies[k], v);
    }
  }

  /**
   * When the loop passes, `$subNodesEncountered` again equals the slot
   * counters' hits, and when one throws it is at most that (the thrower's
   * partial hits are not added).
   */
  lemma {:induction false} HitFromBalances(n: NodeTally, hs: seq<(Tally, Result<nat>)>, i: nat)
    requires i <= |n.slots| == |n.tallies| == |hs| && Balanced(n)
    requires forall k :: i <= k < |hs| ==> Grows(n.tallies[k], hs[k])
    ensures var r := HitFrom(n, hs, i);
      (r.1.Pass? ==> Balanced(r.0)) && r.0.encountered <= HitSum(r.0.tallies)
    decreases |n.slots| - i
  {
    if i < |n.slots| {
      HitSumUpdate(n.tallies, i, hs[i].0);
      var next := n.(tallies := n.tallies[i := hs[i].0]);
      if hs[i].1.Ok? {
        HitFromBalances(next.(encountered := n.encountered + hs[i].1.value), hs, i + 1);
      }
    }
  }

  /**
   * hit keeps every slot counter's invariant; a passing hit leaves the
   * class's counter balanced again, and a throwing one leaves
   * `$subNodesEncountered` at most the slot counters' hits.
   */
  lemma HitNodeCounts(m: NodeMap, n: NodeTally, node: Node)
    requires Counting(n) && Balanced(n)
    ensures Counting(HitNode(m, n, node).0)
    ensures HitNode(m, n, node).1.Pass? ==> Balanced(HitNode(m, n, node).0)
    ensures HitNode(m, n, node).0.encountered <= HitSum(HitNode(m, n, node).0.tallies)
  {
    var hs := SlotHits(m, n, node);
    SlotHitsStep(m, n, node);
    HitFromBalances(n, hs, 0);
    HitFromOutcome(n, hs, 0);
    var r := HitFrom(n, hs, 0);
    forall k | 0 <= k < |n.slots| ensures Tracks(n.slots[k].definition, r.0.tallies[k]) {
    }
  }

  /**
   * The loop passes exactly when every slot's counter accepts its value;
   * each counter then holds its own hit's state, and a counter the loop
   * did not reach is untouched.
   */
  lemma {:induction false} HitFromOutcome(n: NodeTally, hs: seq<(Tally, Result<nat>)>, i: nat)
    requires i <= |n.slots| == |n.tallies| == |hs|
    ensures var r := HitFrom(n, hs, i);
      (r.1.Pass? <==> forall k :: i <= k < |hs| ==> hs[k].1.Ok?) &&
      (r.1.Pass? ==> forall k :: i <= k < |hs| ==> r.0.tallies[k] == hs[k].0) &&
      (forall k :: i <= k < |hs| ==> r.0.tallies[k] == n.tallies[k] || r.0.tallies[k] == hs[k].0)
    decreases |n.slots| - i
  {
    if i < |n.slots| {
      var next := n.(tallies := n.tallies[i := hs[i].0]);
      if hs[i].1.Ok? {
        HitFromOutcome(next.(encountered := n.encountered + hs[i].1.value), hs, i + 1);
      }
    }
  }

  /** hit's loop at slot i: the slot's counter takes its hit, and the loop either stops there or goes on. */
  lemma HitFromStep(n: NodeTally, hs: seq<(Tally, Result<nat>)>, i: nat)
    requires i < |n.slots| == |n.tallies| == |hs|
    ensures hs[i].1.Err? ==>
      HitFrom(n, hs, i) == (NodeTally(n.slots, n.tallies[i := hs[i].0], n.encountered), Fail(hs[i].1.error))
    ensures hs[i].1.Ok? ==>
      HitFrom(n, hs, i) == HitFrom(NodeTally(n.slots, n.tallies[i := hs[i].0], n.encountered + hs[i].1.value), hs, i + 1)
  {
  }

  /** The weights add up to the slots' hits over the total. */
  lemma {:induction false} WeightedFactorSum(tuples: seq<seq<real>>, tallies: seq<Tally>, total: int)
    requires |tallies| == |tuples| && forall i :: 0 <= i < |tuples| ==> Full(tuples[i])
    ensures FactorSum(Weighted(tuples, tallies, total)) == Share(HitSum(tallies), total)
    decreases |tuples|
  {
    if |tuples| > 0 {
      var n := |tuples| - 1;
      assert Weighted(tuples, tallies, total)[..n] == Weighted(tuples[..n], tallies[..n], total);
      WeightedFactorSum(tuples[..n], tallies[..n], total);
      AddShares(HitSum(tallies[..n]), tallies[n].hits, total);
    }
  }

  /** Every slot's tuple has its entries between 0 and 1. */
  lemma SubTuplesBounded(n: NodeTally)
    requires Counting(n)
    ensures forall i :: 0 <= i < |n.slots| ==> UnitBounded(SubTuples(n)[i])
  {
    forall i | 0 <= i < |n.slots| ensures UnitBounded(SubTuples(n)[i]) {
      TupleBounded(n.slots[i].definition, n.tallies[i]);
    }
  }

  /**
   * For a balanced counter the slot weights add up to 1 once anything was
   * encountered (0 before), and every entry of the tuple lies between 0 and 1.
   */
  lemma NodeTupleBounded(n: NodeTally)
    requires Counting(n) && Balanced(n)
    ensures FactorSum(Weighted(SubTuples(n), n.tallies, n.encountered)) == if n.encountered > 0 then 1.0 else 0.0
    ensures UnitBounded(NodeTupleOf(n))
  {
    var tuples := SubTuples(n);
    var ps := Weighted(tuples, n.tallies, n.encountered);
    WeightedFactorSum(tuples, n.tallies, n.encountered);
    ShareOfWhole(n.encountered);
    SubTuplesBounded(n);
    forall i | 0 <= i < |ps| ensures NonNegative(ps[i].values) && 0.0 <= ps[i].factor {
      assert ps[i].values == tuples[i] && UnitBounded(tuples[i]);
    }
    WeightedSumBounds(ps);
  }

  // ---------------------------------------------------------------- the object

  class NodeCounter {
    const name: Cls
    /** The slots the class declares. */
    const slots: seq<Slot>
    /** Slot i's SubNodeCounter, held as its state. */
    var tallies: seq<Tally>
    var subNodesEncountered: nat

    function State(): NodeTally
      reads this
    {
      NodeTally(slots, tallies, subNodesEncountered)
    }

    ghost predicate Valid()
      reads this
    {
      Counting(State()) && Balanced(State())
    }

    /** The constructor once the slots are known: a new SubNodeCounter per slot. */
    constructor(c: Cls, s: seq<Slot>)
      requires Normal(s)
      ensures name == c && State() == Started(s) && Valid()
    {
      name := c;
      slots := s;
      tallies := Started(s).tallies;
      subNodesEncountered := 0;
      new;
      StartedCounts(s);
    }

    /**
     * `new NodeCounter($name)`: the slots come from the mapping, whose get
     * throws for a class without sub node information.
     */
    static method Create(m: NodeMap, c: Cls) returns (r: Result<NodeCounter>)
      requires DeclaredSlots(m, c).Ok? ==> Normal(DeclaredSlots(m, c).value)
      ensures DeclaredSlots(m, c).Err? ==> r == Err(DeclaredSlots(m, c).error)
      ensures DeclaredSlots(m, c).Ok? ==>
        r.Ok? && r.value.name == c && fresh(r.value) &&
        r.value.Valid() && r.value.State() == Started(DeclaredSlots(m, c).value)
    {
      var found := Registry.Lookup(m, c, SubNodeType);
      if found.Err? {
        return Err(found.error);
      }
      if !found.value.SubNodes? {
        return Err(PhpError);
      }
      var counter := new NodeCounter(c, found.value.subNodes.slots);
      return Ok(counter);
    }

    /** hit: each slot's counter takes the node's property of the slot's name, in slot order. */
    method Hit(m: NodeMap, node: Node) returns (r: Outcome)
      requires Valid()
      modifies this
      ensures (State(), r) == HitNode(m, old(State()), node)
      ensures r.Pass? ==> Valid()
      ensures Counting(State()) && subNodesEncountered <= HitSum(tallies)
    {
      HitNodeCounts(m, State(), node);
      var hs := SlotHits(m, State(), node);
      r := Apply(hs);
    }

    /**
     * hit's loop, given what each slot's counter does with its property:
     * slot by slot, the counter takes its new state and what it returns is
     * added to `$subNodesEncountered`, up to the first counter that throws.
     */
    method Apply(hs: seq<(Tally, Result<nat>)>) returns (r: Outcome)
      requires |tallies| == |slots| == |hs|
      modifies this
      ensures (State(), r) == HitFrom(old(State()), hs, 0)
    {
      ghost var goal := HitFrom(State(), hs, 0);
      for i := 0 to |slots|
        invariant |tallies| == |slots|
        invariant goal == HitFrom(State(), hs, i)
      {
        HitFromStep(State(), hs, i);
        tallies := tallies[i := hs[i].0];
        if hs[i].1.Err? {
          return Fail(hs[i].1.error);
        }
        subNodesEncountered := subNodesEncountered + hs[i].1.value;
      }
      return Pass;
    }

    /** getTuple: each slot's tuple normalized and weighted by its hits over `$subNodesEncountered`. */
    method GetTuple() returns (t: seq<real>)
      requires Aligned(State())
      ensures t == NodeTupleOf(State())
    {
      ghost var ps := Weighted(SubTuples(State()), tallies, subNodesEncountered);
      t := Zero();
      for i := 0 to |slots|
        invariant t == WeightedSum(ps[..i])
      {
        var sub := TupleOf(slots[i].definition, tallies[i]);
        var share := if subNodesEncountered > 0 then tallies[i].hits as real / subNodesEncountered as real else 0.0;
        assert ps[i] == Part(sub, share);
        assert ps[..i + 1][..i] == ps[..i];
        t := Sum(t, Scaled(Normalized(sub), share));
      }
      assert ps[..|slots|] == ps;
    }
  }
}
