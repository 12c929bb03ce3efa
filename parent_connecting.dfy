/**
 * PHP-Parser's ParentConnectingVisitor, the first pass of getTupleForCode:
 * enterNode writes, on every node below the top level, the node being
 * visited above it as the node's `parent` attribute. The stack of entered
 * nodes is the recursion here. The parent is the parent node as entered:
 * its class, its own attributes and its sub nodes as they were before the
 * traversal went below it.
 */
module ParentConnecting {
  import opened Wrappers
  import opened PhpClasses
  import opened PhpValues
  import opened LanguageLevel
  import opened LanguageLevelRules
  import Quirks

  /** enterNode: a node gets `parent` when the stack holds a node, and is left as it is at the top level. */
  function Enter(n: Node, parent: Value): Node
  {
    if parent.Obj? then SetAttribute(n, "parent", parent) else n
  }

  /**
   * The traversal of one sub node value below `parent` (Null at the top
   * level): a node is entered, then its sub nodes are traversed below it;
   * an array's items below the same parent; anything else is no node.
   */
  function ConnectValue(v: Value, parent: Value): (r: Value)
    ensures r.Obj? <==> v.Obj?
    ensures r.Arr? <==> v.Arr?
    ensures !v.Obj? && !v.Arr? ==> r == v
    decreases v
  {
    match v
    case Obj(n) =>
      var entered := Enter(n, parent);
      Obj(entered.(props := ConnectProps(n.props, Obj(entered))))
    case Arr(items) => Arr(ConnectItems(items, parent))
    case _ => v
  }

  function ConnectItems(items: seq<Value>, parent: Value): (r: seq<Value>)
    ensures |r| == |items|
    decreases items
  {
    if |items| == 0 then [] else [ConnectValue(items[0], parent)] + ConnectItems(items[1..], parent)
  }

  function ConnectProps(props: seq<(string, Value)>, parent: Value): (r: seq<(string, Value)>)
    ensures |r| == |props|
    decreases props
  {
    if |props| == 0 then []
    else
      assert props[0].1 < props[0];
      [(props[0].0, ConnectValue(props[0].1, parent))] + ConnectProps(props[1..], parent)
  }

  /** The pass over a parsed AST: the statements are the top level, with no parent. */
  function Connected(ast: seq<Value>): seq<Value>
  {
    ConnectItems(ast, Null)
  }

  // ---------------------------------------------------------------- what the pass writes

  /** Each item of an array is traversed below the array's parent. */
  lemma {:induction false} ConnectItemsAt(items: seq<Value>, parent: Value, i: nat)
    requires i < |items|
    ensures ConnectItems(items, parent)[i] == ConnectValue(items[i], parent)
    decreases items
  {
    if i > 0 {
      ConnectItemsAt(items[1..], parent, i - 1);
    }
  }

  /** Each sub node keeps its name and is traversed below the node. */
  lemma {:induction false} ConnectPropsAt(props: seq<(string, Value)>, parent: Value, k: nat)
    requires k < |props|
    ensures ConnectProps(props, parent)[k] == (props[k].0, ConnectValue(props[k].1, parent))
    decreases props
  {
    if k > 0 {
      ConnectPropsAt(props[1..], parent, k - 1);
    }
  }

  /** Reading a sub node of a connected node reads the connected sub node. */
  lemma {:induction false} LookupConnected(props: seq<(string, Value)>, parent: Value, name: string)
    ensures Lookup(ConnectProps(props, parent), name) == ConnectValue(Lookup(props, name), parent)
    decreases props
  {
    if |props| > 0 && props[0].0 != name {
      LookupConnected(props[1..], parent, name);
    }
  }

  /**
   * A node the pass enters keeps its class and every attribute but
   * `parent`; below the top level its `parent` is the node above it, and
   * each of its sub nodes is traversed below the node as entered.
   */
  lemma ConnectNode(n: Node, parent: Value)
    ensures var c := ConnectValue(Obj(n), parent).node;
      c.cls == n.cls &&
      (forall k :: k != "parent" ==> GetAttribute(c, k) == GetAttribute(n, k)) &&
      (parent.Obj? ==> GetAttribute(c, "parent") == parent) &&
      (!parent.Obj? ==> GetAttribute(c, "parent") == GetAttribute(n, "parent"))
    ensures var c := ConnectValue(Obj(n), parent).node;
      forall name :: Prop(c, name) == ConnectValue(Prop(n, name), Obj(Enter(n, parent)))
  {
    var c := ConnectValue(Obj(n), parent).node;
    forall name
      ensures Prop(c, name) == ConnectValue(Prop(n, name), Obj(Enter(n, parent)))
    {
      LookupConnected(n.props, Obj(Enter(n, parent)), name);
    }
  }

  /** The pass keeps the nodes of the tree, class by class, in traversal order. */
  lemma {:induction false} ConnectKeepsClasses(v: Value, parent: Value)
    ensures SameClasses(NodesOf(ConnectValue(v, parent)), NodesOf(v))
    decreases v
  {
    match v
    case Obj(n) =>
      var entered := Enter(n, parent);
      ConnectPropsKeepClasses(n.props, Obj(entered));
      SameClassesJoin(NodesOfProps(ConnectProps(n.props, Obj(entered))), [ConnectValue(v, parent).node],
                      NodesOfProps(n.props), [n]);
    case Arr(items) =>
      ConnectItemsKeepClasses(items, parent);
    case _ =>
  }

  lemma {:induction false} ConnectItemsKeepClasses(items: seq<Value>, parent: Value)
    ensures SameClasses(NodesOfItems(ConnectItems(items, parent)), NodesOfItems(items))
    decreases items
  {
    if |items| > 0 {
      var r := ConnectItems(items, parent);
      ConnectKeepsClasses(items[0], parent);
      ConnectItemsKeepClasses(items[1..], parent);
      assert r[0] == ConnectValue(items[0], parent) && r[1..] == ConnectItems(items[1..], parent);
      SameClassesJoin(NodesOf(r[0]), NodesOfItems(r[1..]), NodesOf(items[0]), NodesOfItems(items[1..]));
    }
  }

  lemma {:induction false} ConnectPropsKeepClasses(props: seq<(string, Value)>, parent: Value)
    ensures SameClasses(NodesOfProps(ConnectProps(props, parent)), NodesOfProps(props))
    decreases props
  {
    if |props| > 0 {
      var r := ConnectProps(props, parent);
      assert props[0].1 < props[0];
      ConnectKeepsClasses(props[0].1, parent);
      ConnectPropsKeepClasses(props[1..], parent);
      assert r[0].1 == ConnectValue(props[0].1, parent) && r[1..] == ConnectProps(props[1..], parent);
      SameClassesJoin(NodesOf(r[0].1), NodesOfProps(r[1..]), NodesOf(props[0].1), NodesOfProps(props[1..]));
    }
  }

  /** The whole AST keeps its nodes, class by class, in traversal order. */
  lemma ConnectedKeepsClasses(ast: seq<Value>)
    ensures SameClasses(NodesOfItems(Connected(ast)), NodesOfItems(ast))
  {
    ConnectItemsKeepClasses(ast, Null);
  }

  /** Below a node, every node of the tree gets a node as its `parent`. */
  lemma {:induction false} ConnectGivesParents(v: Value, parent: Value)
    requires parent.Obj?
    ensures forall n :: n in NodesOf(ConnectValue(v, parent)) ==> GetAttribute(n, "parent").Obj?
    decreases v
  {
    match v
    case Obj(n) =>
      ConnectPropsGiveParents(n.props, Obj(Enter(n, parent)));
    case Arr(items) =>
      ConnectItemsGiveParents(items, parent);
    case _ =>
  }

  lemma {:induction false} ConnectItemsGiveParents(items: seq<Value>, parent: Value)
    requires parent.Obj?
    ensures forall n :: n in NodesOfItems(ConnectItems(items, parent)) ==> GetAttribute(n, "parent").Obj?
    decreases items
  {
    if |items| > 0 {
      var r := ConnectItems(items, parent);
      ConnectGivesParents(items[0], parent);
      ConnectItemsGiveParents(items[1..], parent);
      assert r[0] == ConnectValue(items[0], parent) && r[1..] == ConnectItems(items[1..], parent);
    }
  }

  lemma {:induction false} ConnectPropsGiveParents(props: seq<(string, Value)>, parent: Value)
    requires parent.Obj?
    ensures forall n :: n in NodesOfProps(ConnectProps(props, parent)) ==> GetAttribute(n, "parent").Obj?
    decreases props
  {
    if |props| > 0 {
      var r := ConnectProps(props, parent);
      assert props[0].1 < props[0];
      ConnectGivesParents(props[0].1, parent);
      ConnectPropsGiveParents(props[1..], parent);
      assert r[0].1 == ConnectValue(props[0].1, parent) && r[1..] == ConnectProps(props[1..], parent);
    }
  }

  /** Every node below a top-level statement has a node as its `parent`. */
  lemma ConnectedChildrenHaveParents(n: Node, parent: Value)
    ensures var c := ConnectValue(Obj(n), parent).node;
      forall d :: d in NodesOfProps(c.props) ==> GetAttribute(d, "parent").Obj?
  {
    ConnectPropsGiveParents(n.props, Obj(Enter(n, parent)));
  }

  // ---------------------------------------------------------------- the closure-use rule after the pass

  /** The i-th `use` item of a closure after the pass: the item traversed below the closure as entered. */
  function ConnectedUse(c: Node, parent: Value, i: nat): (u: Node)
    requires Prop(c, "uses").Arr? && i < |Prop(c, "uses").items| && Prop(c, "uses").items[i].Obj?
    ensures Obj(u) == ConnectValue(Prop(c, "uses").items[i], Obj(Enter(c, parent)))
  {
    ConnectNode(c, parent);
    ConnectItemsAt(Prop(c, "uses").items, Obj(Enter(c, parent)), i);
    Prop(ConnectValue(Obj(c), parent).node, "uses").items[i].node
  }

  /**
   * A closure's `use` items get the closure as their parent: a
   * function-like node whose parameters are the closure's own. The rule
   * therefore reads the closure's parameters and never fails for want of a
   * parent: it answers 7.0 exactly for a superglobal or one of the
   * parameters' names once those can be read.
   */
  lemma ClosureUsesConnected(c: Node, parent: Value, i: nat)
    requires c.cls == Expr_Closure && Prop(c, "uses").Arr?
    requires i < |Prop(c, "uses").items| && Prop(c, "uses").items[i].Obj?
    ensures var u := ConnectedUse(c, parent, i);
      FunctionLike(GetAttribute(u, "parent")) &&
      Prop(GetAttribute(u, "parent").node, "params") == Prop(c, "params")
  {
    var entered := Enter(c, parent);
    var u := ConnectedUse(c, parent, i);
    assert GetAttribute(u, "parent") == Obj(entered);
    assert entered.props == c.props && IsA(entered.cls, Expr_Closure);
  }

  /** The use item's variable name survives the pass. */
  lemma ClosureUseNameConnected(c: Node, parent: Value, i: nat)
    requires Prop(c, "uses").Arr?
    requires i < |Prop(c, "uses").items| && Prop(c, "uses").items[i].Obj?
    ensures var u := ConnectedUse(c, parent, i);
      var name := PropOf(Prop(Prop(c, "uses").items[i].node, "var"), "name");
      PropOf(Prop(u, "var"), "name").Str? <==> name.Str?
    ensures var u := ConnectedUse(c, parent, i);
      var name := PropOf(Prop(Prop(c, "uses").items[i].node, "var"), "name");
      name.Str? ==> PropOf(Prop(u, "var"), "name") == name
  {
    var use := Prop(c, "uses").items[i].node;
    var u := ConnectedUse(c, parent, i);
    var above := Obj(Enter(use, Obj(Enter(c, parent))));
    assert u.props == ConnectProps(use.props, above);
    LookupConnected(use.props, above, "var");
    var variable := Prop(use, "var");
    if variable.Obj? {
      LookupConnected(variable.node.props, Obj(Enter(variable.node, above)), "name");
    }
  }

  /**
   * After the pass, the closure-use rule on a closure's `use` item fails
   * only when the closure's parameters cannot be read, and answers 7.0 for
   * a name among them.
   */
  lemma ClosureUseLevelConnected(c: Node, parent: Value, i: nat)
    requires c.cls == Expr_Closure && Prop(c, "uses").Arr?
    requires i < |Prop(c, "uses").items| && Prop(c, "uses").items[i].Obj?
    ensures var u := ConnectedUse(c, parent, i);
      Quirks.GetParameterVariableNames(Prop(c, "params")).Ok? ==> ClosureUseLevel(u).Ok?
    ensures var u := ConnectedUse(c, parent, i);
      var name := PropOf(Prop(Prop(c, "uses").items[i].node, "var"), "name");
      name.Str? && Quirks.GetParameterVariableNames(Prop(c, "params")).Ok? &&
      (exists p :: p in Prop(c, "params").items && Quirks.ParameterName(p) == Ok(name.s)) ==>
        ClosureUseLevel(u) == Ok(Some(PHP7_0))
  {
    var u := ConnectedUse(c, parent, i);
    ClosureUsesConnected(c, parent, i);
    ClosureUseNameConnected(c, parent, i);
    ClosureUseFailures(u);
    ClosureUseOfParameter(u);
  }
}
