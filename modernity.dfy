/**
 * Modernity: the entry point. getTupleForCode runs the traverser chain over
 * a parsed AST (the parent links, then the level stamps, then the counting
 * visitor) and returns the counting visitor's tuple; getTupleForDirectory
 * weighs every file's normalized tuple by the file's share of the bytes.
 */
module ModernityAnalysis {
  import opened Wrappers
  import opened PhpClasses
  import opened PhpValues
  import opened LanguageLevelRules
  import opened LanguageLevelTuples
  import opened WeightedTuples
  import opened Registry
  import opened NodeCounting
  import opened ModernityVisiting
  import LanguageLevelVisitors
  import opened ParentConnecting

  // ---------------------------------------------------------------- the traversal of an AST

  /** A visitor's leaveNode on a node value: the node afterwards and whether the call returned. */
  type Stamper = Node -> (Node, Outcome)

  /** leaveNode of the LanguageLevelVisitor, on node values. */
  function Stamping(m: NodeMap, semi: KeywordTest): Stamper
  {
    n => LanguageLevelVisitors.Stamp(m, n, semi)
  }

  /**
   * The traversal of one sub node value: a node's sub nodes are left first,
   * then the node itself; an array's items in order; anything else is no
   * node. An exception stops the traversal with the nodes left so far
   * written back.
   */
  function StampValue(stamp: Stamper, v: Value): (Value, Outcome)
    decreases v
  {
    match v
    case Obj(n) =>
      var kids := StampProps(stamp, n.props);
      if kids.1.Fail? then (Obj(n.(props := kids.0)), kids.1)
      else
        var left := stamp(n.(props := kids.0));
        (Obj(left.0), left.1)
    case Arr(items) =>
      var r := StampItems(stamp, items);
      (Arr(r.0), r.1)
    case _ => (v, Pass)
  }

  /** The traversal of a list of statements or of an array sub node. */
  function StampItems(stamp: Stamper, items: seq<Value>): (r: (seq<Value>, Outcome))
    ensures |r.0| == |items|
    decreases items
  {
    if |items| == 0 then ([], Pass)
    else
      var first := StampValue(stamp, items[0]);
      if first.1.Fail? then ([first.0] + items[1..], first.1)
      else
        var rest := StampItems(stamp, items[1..]);
        ([first.0] + rest.0, rest.1)
  }

  /** The traversal of a node's sub nodes, in declaration order. */
  function StampProps(stamp: Stamper, props: seq<(string, Value)>): (r: (seq<(string, Value)>, Outcome))
    ensures |r.0| == |props|
    ensures forall i :: 0 <= i < |props| ==> r.0[i].0 == props[i].0
    decreases props
  {
    if |props| == 0 then ([], Pass)
    else
      assert props[0].1 < props[0];
      var first := StampValue(stamp, props[0].1);
      if first.1.Fail? then ([(props[0].0, first.0)] + props[1..], first.1)
      else
        var rest := StampProps(stamp, props[1..]);
        ([(props[0].0, first.0)] + rest.0, rest.1)
  }

  /** A node the level stamping has written: its `from` is a level. */
  predicate Stamped(n: Node)
  {
    GetAttribute(n, "from").Lvl?
  }

  /** A leaveNode that keeps the class and sub nodes and, when it returns, leaves the node stamped. */
  ghost predicate Stamps(stamp: Stamper)
  {
    forall n: Node :: stamp(n).0.cls == n.cls && stamp(n).0.props == n.props && (stamp(n).1.Pass? ==> Stamped(stamp(n).0))
  }

  /**
   * A traversal that returns leaves every node stamped, and the tree has
   * the same nodes as before, class by class, in the same order.
   */
  lemma {:induction false} StampValueStamps(stamp: Stamper, v: Value)
    requires Stamps(stamp)
    ensures var r := StampValue(stamp, v);
      r.1.Pass? ==> (forall n :: n in NodesOf(r.0) ==> Stamped(n)) && SameClasses(NodesOf(r.0), NodesOf(v))
    decreases v
  {
    match v
    case Obj(n) =>
      var kids := StampProps(stamp, n.props);
      StampPropsStamps(stamp, n.props);
      if kids.1.Pass? {
        var left := stamp(n.(props := kids.0));
        assert NodesOf(StampValue(stamp, v).0) == NodesOfProps(kids.0) + [left.0];
        SameClassesJoin(NodesOfProps(kids.0), [left.0], NodesOfProps(n.props), [n]);
      }
    case Arr(items) =>
      StampItemsStamps(stamp, items);
    case _ =>
  }

  lemma {:induction false} StampItemsStamps(stamp: Stamper, items: seq<Value>)
    requires Stamps(stamp)
    ensures var r := StampItems(stamp, items);
      r.1.Pass? ==> (forall n :: n in NodesOfItems(r.0) ==> Stamped(n)) && SameClasses(NodesOfItems(r.0), NodesOfItems(items))
    decreases items
  {
    if |items| > 0 {
      var first := StampValue(stamp, items[0]);
      StampValueStamps(stamp, items[0]);
      if first.1.Pass? {
        var rest := StampItems(stamp, items[1..]);
        StampItemsStamps(stamp, items[1..]);
        if rest.1.Pass? {
          assert ([first.0] + rest.0)[1..] == rest.0;
          SameClassesJoin(NodesOf(first.0), NodesOfItems(rest.0), NodesOf(items[0]), NodesOfItems(items[1..]));
        }
      }
    }
  }

  lemma {:induction false} StampPropsStamps(stamp: Stamper, props: seq<(string, Value)>)
    requires Stamps(stamp)
    ensures var r := StampProps(stamp, props);
      r.1.Pass? ==> (forall n :: n in NodesOfProps(r.0) ==> Stamped(n)) && SameClasses(NodesOfProps(r.0), NodesOfProps(props))
    decreases props
  {
    if |props| > 0 {
      var first := StampValue(stamp, props[0].1);
      assert props[0].1 < props[0];
      StampValueStamps(stamp, props[0].1);
      if first.1.Pass? {
        var rest := StampProps(stamp, props[1..]);
        StampPropsStamps(stamp, props[1..]);
        if rest.1.Pass? {
          assert ([(props[0].0, first.0)] + rest.0)[1..] == rest.0;
          SameClassesJoin(NodesOf(first.0), NodesOfProps(rest.0), NodesOf(props[0].1), NodesOfProps(props[1..]));
        }
      }
    }
  }

  /** The LanguageLevelVisitor's leaveNode keeps class and sub nodes, and stamps `from` when it returns. */
  lemma StampingStamps(m: NodeMap, semi: KeywordTest)
    ensures Stamps(Stamping(m, semi))
  {
    forall n: Node
      ensures Stamping(m, semi)(n).0.cls == n.cls && Stamping(m, semi)(n).0.props == n.props
      ensures Stamping(m, semi)(n).1.Pass? ==> Stamped(Stamping(m, semi)(n).0)
    {
      LanguageLevelVisitors.StampWrites(m, n, semi);
      if Stamping(m, semi)(n).1.Pass? {
        LanguageLevelVisitors.StampedFromIsLevel(m, n, semi);
      }
    }
  }

  /**
   * getTupleForCode on a parsed AST: the parent-connecting pass, then the
   * level stamping pass over the whole connected AST, then the counting pass over the stamped AST (beforeTraverse, then
   * leaveNode on every node in traversal order), then getTuple. The first
   * exception of either pass is the result.
   */
  function TupleForCode(m: NodeMap, semi: KeywordTest, ast: seq<Value>): (r: Result<seq<real>>)
    reads InfoObjects(m)
    requires NormalSlots(m)
    ensures r.Ok? ==> Full(r.value) && UnitBounded(r.value)
  {
    var stamped := StampItems(Stamping(m, semi), Connected(ast));
    if stamped.1.Fail? then Err(stamped.1.error)
    else
      ResetVisiting<Cls>();
      var counted := LeaveAll(m, Reset(), NodesOfItems(stamped.0));
      if counted.1.Fail? then Err(counted.1.error)
      else
        LeaveAllKeepsVisiting(m, Reset(), NodesOfItems(stamped.0));
        VisitTupleBounded(counted.0);
        Ok(VisitTupleOf(counted.0))
  }

  /**
   * The passes run in order: when getTupleForCode returns, the counting
   * pass has seen every node of the AST exactly once, each already
   * stamped with its `from` level, the classes listed in the order they
   * were first met, and the tuple lies between 0 and 1.
   */
  lemma CountsStampedNodes(m: NodeMap, semi: KeywordTest, ast: seq<Value>)
    requires NormalSlots(m)
    ensures var stamped := StampItems(Stamping(m, semi), Connected(ast));
      var nodes := NodesOfItems(stamped.0);
      TupleForCode(m, semi, ast).Ok? ==>
        stamped.1.Pass? && LeaveAll(m, Reset(), nodes).1.Pass? &&
        (forall n :: n in nodes ==> Stamped(n)) && SameClasses(nodes, NodesOfItems(ast)) &&
        LeaveAll(m, Reset(), nodes).0.hits == |NodesOfItems(ast)| &&
        LeaveAll(m, Reset(), nodes).0.classNames == FirstSeen([], Classes(nodes)) &&
        UnitBounded(TupleForCode(m, semi, ast).value)
  {
    var stamped := StampItems(Stamping(m, semi), Connected(ast));
    var nodes := NodesOfItems(stamped.0);
    if TupleForCode(m, semi, ast).Ok? {
      StampingStamps(m, semi);
      StampItemsStamps(Stamping(m, semi), Connected(ast));
      ConnectedKeepsClasses(ast);
      ResetVisiting<Cls>();
      LeaveAllHits(m, Reset(), nodes);
      LeaveAllNames(m, Reset(), nodes);
      LeaveAllKeepsVisiting(m, Reset(), nodes);
      VisitTupleBounded(LeaveAll(m, Reset(), nodes).0);
    }
  }

  /** One leaveNode of the counting pass, and then the rest of the nodes. */
  lemma LeaveAllStep(m: NodeMap, v: Visit<Cls, NodeTally>, nodes: seq<Node>)
    requires NormalSlots(m) && Visiting(v) && |nodes| > 0
    ensures var step := Leave(m, v, nodes[0]);
      step.1.Fail? ==> LeaveAll(m, v, nodes) == step
    ensures var step := Leave(m, v, nodes[0]);
      step.1.Pass? ==> Visiting(step.0) && LeaveAll(m, v, nodes) == LeaveAll(m, step.0, nodes[1..])
  {
    LeaveKeepsVisiting(m, v, nodes[0]);
  }

  /** When the counting pass throws, its exception is the result. */
  lemma CountingThrows(m: NodeMap, semi: KeywordTest, ast: seq<Value>)
    requires NormalSlots(m)
    ensures var stamped := StampItems(Stamping(m, semi), Connected(ast));
      stamped.1.Pass? && LeaveAll(m, Reset(), NodesOfItems(stamped.0)).1.Fail? ==>
        TupleForCode(m, semi, ast) == Err(LeaveAll(m, Reset(), NodesOfItems(stamped.0)).1.error)
  {
  }

  /** When both passes return, the result is the counting visitor's tuple. */
  lemma CountingReturns(m: NodeMap, semi: KeywordTest, ast: seq<Value>)
    requires NormalSlots(m)
    ensures var stamped := StampItems(Stamping(m, semi), Connected(ast));
      stamped.1.Pass? && LeaveAll(m, Reset(), NodesOfItems(stamped.0)).1.Pass? ==>
        Tupled(LeaveAll(m, Reset(), NodesOfItems(stamped.0)).0) &&
        TupleForCode(m, semi, ast) == Ok(VisitTupleOf(LeaveAll(m, Reset(), NodesOfItems(stamped.0)).0))
    ensures forall v :: var stamped := StampItems(Stamping(m, semi), Connected(ast));
      stamped.1.Pass? && LeaveAll(m, Reset(), NodesOfItems(stamped.0)) == (v, Pass) ==>
        Tupled(v) && TupleForCode(m, semi, ast) == Ok(VisitTupleOf(v))
  {
    var stamped := StampItems(Stamping(m, semi), Connected(ast));
    if stamped.1.Pass? {
      ResetVisiting<Cls>();
      var nodes := NodesOfItems(stamped.0);
      if LeaveAll(m, Reset(), nodes).1.Pass? {
        LeaveAllKeepsVisiting(m, Reset(), nodes);
        VisitTupleBounded(LeaveAll(m, Reset(), nodes).0);
      }
    }
  }

  /** When the stamping pass throws, the counting pass never runs and the exception is the result. */
  lemma StampingThrows(m: NodeMap, semi: KeywordTest, ast: seq<Value>)
    requires NormalSlots(m)
    ensures StampItems(Stamping(m, semi), Connected(ast)).1.Fail? ==>
      TupleForCode(m, semi, ast) == Err(StampItems(Stamping(m, semi), Connected(ast)).1.error)
  {
  }

  // ---------------------------------------------------------------- the directory roll-up

  /** A PHP file found under the directory: its path, filesize and parsed AST. */
  datatype SourceFile = SourceFile(path: string, size: nat, ast: seq<Value>)

  /** One entry of `$results`. */
  datatype FileResult = FileResult(path: string, size: nat, tuple: seq<real>)

  predicate AllTupled(rs: seq<FileResult>)
  {
    forall i :: 0 <= i < |rs| ==> Full(rs[i].tuple)
  }

  /** Every file's tuple lies between 0 and 1. */
  predicate AllBounded(rs: seq<FileResult>)
  {
    forall i :: 0 <= i < |rs| ==> UnitBounded(rs[i].tuple)
  }

  /** `$totalSize`: the sizes added up. */
  function SizeSum(rs: seq<FileResult>): nat
    decreases |rs|
  {
    if |rs| == 0 then 0 else SizeSum(rs[..|rs| - 1]) + rs[|rs| - 1].size
  }

  /** The fold's terms: each file's tuple with the factor `$result->size / $totalSize`. */
  function FileParts(rs: seq<FileResult>, total: nat): (ps: seq<Part>)
    requires total > 0
    ensures |ps| == |rs|
    ensures forall i :: 0 <= i < |rs| ==> ps[i] == Part(rs[i].tuple, rs[i].size as real / total as real)
  {
    seq(|rs|, i requires 0 <= i < |rs| => Part(rs[i].tuple, rs[i].size as real / total as real))
  }

  /**
   * The array_reduce: from the zero tuple, add each file's normalized tuple
   * scaled by its share of the bytes. The share is computed only when there
   * is a file, and a total of 0 bytes then throws DivisionByZeroError.
   */
  function RollUp(rs: seq<FileResult>, total: nat): (r: Result<seq<real>>)
    requires AllTupled(rs)
    ensures r.Ok? ==> Full(r.value)
  {
    if |rs| == 0 then Ok(Zero())
    else if total == 0 then Err(DivisionByZeroError)
    else Ok(WeightedSum(FileParts(rs, total)))
  }

  /** The foreach: each file's size and tuple, stopping at the first file whose analysis throws. */
  function Analyzed(m: NodeMap, semi: KeywordTest, files: seq<SourceFile>): (r: Result<seq<FileResult>>)
    reads InfoObjects(m)
    requires NormalSlots(m)
    ensures r.Ok? ==> |r.value| == |files| && AllTupled(r.value) && AllBounded(r.value)
    decreases |files|
  {
    if |files| == 0 then Ok([])
    else
      var n := |files| - 1;
      var init := Analyzed(m, semi, files[..n]);
      if init.Err? then init
      else
        var t := TupleForCode(m, semi, files[n].ast);
        if t.Err? then Err(t.error)
        else Ok(init.value + [FileResult(files[n].path, files[n].size, t.value)])
  }

  /** getTupleForDirectory over the files the directory iterator yields, in that order. */
  function DirectoryTuple(m: NodeMap, semi: KeywordTest, files: seq<SourceFile>): (r: Result<seq<real>>)
    reads InfoObjects(m)
    requires NormalSlots(m)
  {
    var rs := Analyzed(m, semi, files);
    if rs.Err? then Err(rs.error) else RollUp(rs.value, SizeSum(rs.value))
  }

  /** One part's share of entry i: the normalized entry times the factor. */
  function Term(p: Part, i: nat): real
    requires Full(p.values) && i < SIZE
  {
    Normalized(p.values)[i] * p.factor
  }

  /** Entry i of the fold, written out: the sum over the parts of normalized entry i times the factor. */
  function EntrySum(ps: seq<Part>, i: nat): real
    requires AllFull(ps) && i < SIZE
    decreases |ps|
  {
    if |ps| == 0 then 0.0 else EntrySum(ps[..|ps| - 1], i) + Term(ps[|ps| - 1], i)
  }

  /** Entry i after one more step of the fold. */
  lemma AddPartAt(a: seq<real>, p: Part, i: nat)
    requires Full(a) && Full(p.values) && i < SIZE
    ensures Sum(a, Scaled(Normalized(p.values), p.factor))[i] == a[i] + Term(p, i)
  {
    var l := LanguageLevel.At(i);
    assert Scaled(Normalized(p.values), p.factor)[LanguageLevel.Index(l)] == Term(p, i);
  }

  /** The fold computes, entry by entry, the sum of normalized entries weighted by their factors. */
  lemma {:induction false} WeightedSumEntries(ps: seq<Part>, i: nat)
    requires AllFull(ps) && i < SIZE
    ensures WeightedSum(ps)[i] == EntrySum(ps, i)
    decreases |ps|
  {
    if |ps| == 0 {
      var l := LanguageLevel.At(i);
      assert Zero()[LanguageLevel.Index(l)] == 0.0;
    } else {
      var n := |ps| - 1;
      assert AllFull(ps[..n]);
      WeightedSumEntries(ps[..n], i);
      AddPartAt(WeightedSum(ps[..n]), ps[n], i);
    }
  }

  /**
   * The directory tuple is, level by level, the sum over the files of the
   * file's normalized entry times its size over the total size.
   */
  lemma RollUpEntries(rs: seq<FileResult>, i: nat)
    requires AllTupled(rs) && 0 < SizeSum(rs) && i < SIZE
    ensures RollUp(rs, SizeSum(rs)) == Ok(WeightedSum(FileParts(rs, SizeSum(rs))))
    ensures RollUp(rs, SizeSum(rs)).value[i] == EntrySum(FileParts(rs, SizeSum(rs)), i)
  {
    WeightedSumEntries(FileParts(rs, SizeSum(rs)), i);
  }

  /** No files: the zero tuple, and no division happens. */
  lemma RollUpNoFiles(total: nat)
    ensures RollUp([], total) == Ok(Zero())
  {
  }

  /** Files whose sizes add up to 0 (empty files only): the first share divides by zero. */
  lemma RollUpEmptyFiles(rs: seq<FileResult>)
    requires AllTupled(rs) && |rs| > 0 && SizeSum(rs) == 0
    ensures RollUp(rs, SizeSum(rs)) == Err(DivisionByZeroError)
  {
  }

  /** A single non-empty file: the directory tuple is that file's normalized tuple. */
  lemma RollUpOneFile(f: FileResult)
    requires Full(f.tuple) && f.size > 0
    ensures RollUp([f], SizeSum([f])) == Ok(Normalized(f.tuple))
  {
    assert SizeSum([f]) == f.size by {
      assert [f][..0] == [];
    }
    var ps := FileParts([f], f.size);
    assert f.size as real / f.size as real == 1.0;
    assert ps == [Part(f.tuple, 1.0)];
    WeightedSumSingle(f.tuple);
  }

  /** The sizes of a prefix of the files over the total, added up, are the prefix's bytes over the total. */
  lemma {:induction false} SharesAddUp(rs: seq<FileResult>, total: nat)
    requires AllTupled(rs) && total > 0
    ensures FactorSum(FileParts(rs, total)) == SizeSum(rs) as real / total as real
    decreases |rs|
  {
    if |rs| > 0 {
      var n := |rs| - 1;
      SharesAddUp(rs[..n], total);
      assert FileParts(rs, total)[..n] == FileParts(rs[..n], total);
      AddShares(SizeSum(rs[..n]), rs[n].size, total);
    }
  }

  /** With at least one byte, the file weights add up to 1. */
  lemma WeightsSumToOne(rs: seq<FileResult>)
    requires AllTupled(rs) && SizeSum(rs) > 0
    ensures FactorSum(FileParts(rs, SizeSum(rs))) == 1.0
  {
    SharesAddUp(rs, SizeSum(rs));
    var total := SizeSum(rs) as real;
    assert total > 0.0;
    assert total / total == 1.0;
  }

  /**
   * Tuples of counts give a directory tuple whose every entry lies between 0
   * and 1, since the weights add up to 1.
   */
  lemma RollUpBounded(rs: seq<FileResult>)
    requires AllTupled(rs) && forall i :: 0 <= i < |rs| ==> NonNegative(rs[i].tuple)
    requires |rs| == 0 || SizeSum(rs) > 0
    ensures RollUp(rs, SizeSum(rs)).Ok? && UnitBounded(RollUp(rs, SizeSum(rs)).value)
  {
    if |rs| == 0 {
      WeightedSumBounds([]);
    } else {
      var ps := FileParts(rs, SizeSum(rs));
      WeightsSumToOne(rs);
      WeightedSumBounds(ps);
    }
  }

  /** The files' tuples come from getTupleForCode, so a directory's tuple lies between 0 and 1. */
  lemma DirectoryTupleBounded(m: NodeMap, semi: KeywordTest, files: seq<SourceFile>)
    requires NormalSlots(m)
    requires Analyzed(m, semi, files).Ok? && (|files| == 0 || SizeSum(Analyzed(m, semi, files).value) > 0)
    ensures DirectoryTuple(m, semi, files).Ok? && UnitBounded(DirectoryTuple(m, semi, files).value)
  {
    var rs := Analyzed(m, semi, files).value;
    assert AllBounded(rs);
    RollUpBounded(rs);
  }

  // ---------------------------------------------------------------- the object

  class Modernity {
    /** The registry with the default registrars. */
    const mapping: NodeMap
    const modernityVisitor: ModernityVisitor
    /** The AST being processed. */
    var ast: seq<Value>

    constructor(mapping: NodeMap)
      ensures this.mapping == mapping && ast == []
    {
      this.mapping := mapping;
      modernityVisitor := new ModernityVisitor();
      ast := [];
    }

    /**
     * getTupleForCode: the parsed AST becomes the current AST, the chain of
     * passes runs over it, and the counting visitor's tuple is the result.
     */
    method GetTupleForCode(semi: KeywordTest, parsed: seq<Value>) returns (r: Result<seq<real>>)
      requires NormalSlots(mapping)
      modifies this, modernityVisitor
      ensures r == TupleForCode(mapping, semi, parsed)
      ensures var stamped := StampItems(Stamping(mapping, semi), Connected(parsed));
        ast == if stamped.1.Pass? then stamped.0 else Connected(parsed)
    {
      ast := parsed;
      var passed := Traverse(semi);
      if passed.Fail? {
        StampingThrows(mapping, semi, parsed);
        CountingThrows(mapping, semi, parsed);
        return Err(passed.error);
      }
      var t := CountedTuple(semi, parsed);
      r := Ok(t);
    }

    /** getTuple, once both passes have returned over the parsed AST. */
    method CountedTuple(ghost semi: KeywordTest, ghost parsed: seq<Value>) returns (t: seq<real>)
      requires NormalSlots(mapping)
      requires var stamped := StampItems(Stamping(mapping, semi), Connected(parsed));
        stamped.1.Pass? && (modernityVisitor.State(), Pass) == LeaveAll(mapping, Reset(), NodesOfItems(stamped.0))
      ensures TupleForCode(mapping, semi, parsed) == Ok(t)
    {
      CountingReturns(mapping, semi, parsed);
      label Counted:
      t := modernityVisitor.GetTuple();
      assert unchanged@Counted(InfoObjects(mapping));
    }

    /**
     * traverse: each pass of the chain replaces the AST with the one it
     * returns. The parent-connecting pass writes `parent` on every node below
     * the top level; the level stamping pass writes `from` and `to` on every
     * node; the counting pass leaves the AST as it is.
     */
    method Traverse(semi: KeywordTest) returns (r: Outcome)
      requires NormalSlots(mapping)
      modifies this, modernityVisitor
      ensures var stamped := StampItems(Stamping(mapping, semi), Connected(old(ast)));
        ast == if stamped.1.Pass? then stamped.0 else Connected(old(ast))
      ensures var stamped := StampItems(Stamping(mapping, semi), Connected(old(ast)));
        stamped.1.Fail? ==> r == stamped.1
      ensures var stamped := StampItems(Stamping(mapping, semi), Connected(old(ast)));
        stamped.1.Pass? ==> (modernityVisitor.State(), r) == LeaveAll(mapping, Reset(), NodesOfItems(stamped.0))
    {
      ast := Connected(ast);
      var stamped := StampItems(Stamping(mapping, semi), ast);
      if stamped.1.Fail? {
        return stamped.1;
      }
      ast := stamped.0;
      r := CountingPass(NodesOfItems(ast));
    }

    /** The counting visitor's traversal: beforeTraverse, then leaveNode on each node until one throws. */
    method CountingPass(nodes: seq<Node>) returns (r: Outcome)
      requires NormalSlots(mapping)
      modifies modernityVisitor
      ensures (modernityVisitor.State(), r) == LeaveAll(mapping, Reset(), nodes)
    {
      modernityVisitor.BeforeTraverse();
      ResetVisiting<Cls>();
      for i := 0 to |nodes|
        invariant NormalSlots(mapping) && modernityVisitor.Valid()
        invariant LeaveAll(mapping, Reset(), nodes) == LeaveAll(mapping, modernityVisitor.State(), nodes[i..])
      {
        ghost var before := modernityVisitor.State();
        r := LeaveNode(nodes[i], before, nodes[i..], Reset(), nodes);
        LeaveAllStep(mapping, before, nodes[i..]);
        assert nodes[i..][1..] == nodes[i + 1..];
        if r.Fail? {
          return;
        }
      }
      r := Pass;
    }

    /**
     * The counting visitor's leaveNode, as the traversal calls it; the
     * registry's information objects, and so the counting pass over any
     * nodes, stay as they were.
     */
    method LeaveNode(node: Node, ghost v: Visit<Cls, NodeTally>, ghost rest: seq<Node>,
                     ghost start: Visit<Cls, NodeTally>, ghost nodes: seq<Node>) returns (r: Outcome)
      requires NormalSlots(mapping) && Visiting(v) && Visiting(start) && modernityVisitor.State() == v
      modifies modernityVisitor
      ensures (modernityVisitor.State(), r) == Leave(mapping, v, node)
      ensures r.Pass? ==> modernityVisitor.Valid()
      ensures NormalSlots(mapping) && LeaveAll(mapping, v, rest) == old(LeaveAll(mapping, v, rest))
      ensures LeaveAll(mapping, start, nodes) == old(LeaveAll(mapping, start, nodes))
    {
      r := modernityVisitor.LeaveNode(mapping, node);
      assert unchanged(InfoObjects(mapping));
    }

    /** getTupleForCode on the next file; the analysis of the files before it stays as it was. */
    method AnalyzeFile(semi: KeywordTest, parsed: seq<Value>, ghost done: seq<SourceFile>) returns (r: Result<seq<real>>)
      requires NormalSlots(mapping)
      modifies this, modernityVisitor
      ensures r == TupleForCode(mapping, semi, parsed)
      ensures NormalSlots(mapping) && Analyzed(mapping, semi, done) == old(Analyzed(mapping, semi, done))
    {
      r := GetTupleForCode(semi, parsed);
      assert unchanged(InfoObjects(mapping));
    }

    /**
     * getTupleForDirectory: analyze each file in turn, adding up the sizes,
     * then fold the results into one tuple.
     */
    method GetTupleForDirectory(semi: KeywordTest, files: seq<SourceFile>) returns (r: Result<seq<real>>)
      requires NormalSlots(mapping)
      modifies this, modernityVisitor
      ensures r == DirectoryTuple(mapping, semi, files)
    {
      var results: seq<FileResult> := [];
      var totalSize: nat := 0;
      for i := 0 to |files|
        invariant NormalSlots(mapping)
        invariant Analyzed(mapping, semi, files[..i]) == Ok(results)
        invariant totalSize == SizeSum(results)
      {
        var f := files[i];
        var tuple := AnalyzeFile(semi, f.ast, files[..i]);
        AnalyzedNext(mapping, semi, files, i);
        if tuple.Err? {
          AnalyzedStops(mapping, semi, files, i + 1);
          return Err(tuple.error);
        }
        ghost var before := results;
        results := results + [FileResult(f.path, f.size, tuple.value)];
        assert results[..|results| - 1] == before;
        totalSize := totalSize + f.size;
      }
      assert files[..|files|] == files;
      r := RollUp(results, totalSize);
    }
  }

  /** The foreach's step: the next file's analysis is appended, or its exception ends the loop. */
  lemma AnalyzedNext(m: NodeMap, semi: KeywordTest, files: seq<SourceFile>, i: nat)
    requires NormalSlots(m) && i < |files| && Analyzed(m, semi, files[..i]).Ok?
    ensures var t := TupleForCode(m, semi, files[i].ast);
      Analyzed(m, semi, files[..i + 1]) ==
        if t.Err? then Err(t.error)
        else Ok(Analyzed(m, semi, files[..i]).value + [FileResult(files[i].path, files[i].size, t.value)])
  {
    assert files[..i + 1][..i] == files[..i];
  }

  /** Once a file's analysis throws, so does the analysis of every longer prefix, with the same exception. */
  lemma {:induction false} AnalyzedStops(m: NodeMap, semi: KeywordTest, files: seq<SourceFile>, i: nat)
    requires NormalSlots(m) && i <= |files|
    requires Analyzed(m, semi, files[..i]).Err?
    ensures Analyzed(m, semi, files) == Analyzed(m, semi, files[..i])
    decreases |files| - i
  {
    if i < |files| {
      assert files[..i + 1][..i] == files[..i];
      AnalyzedStops(m, semi, files, i + 1);
    } else {
      assert files[..i] == files;
    }
  }
}
