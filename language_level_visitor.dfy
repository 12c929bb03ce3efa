/**
 * LanguageLevelVisitor: when the traversal leaves a node it looks up the
 * language-level information of the node's exact class and writes the
 * node's `from` and `to` attributes.
 */
module LanguageLevelVisitors {
  import opened Wrappers
  import opened PhpClasses
  import opened PhpValues
  import opened LanguageLevel
  import opened LanguageLevelRules
  import opened NodeInformation
  import opened Registry
  import opened LanguageLevelRegistrar

  /**
   * get($class, LanguageLevelInformation::class) followed by the call of
   * getFrom on the result: information of another kind has no such method.
   */
  function LevelInformation(m: NodeMap, c: Cls): (r: Result<LanguageLevelInformation>)
    ensures Registry.Lookup(m, c, LanguageLevelType).Err? ==> r == Err(Registry.Lookup(m, c, LanguageLevelType).error)
    ensures r.Ok? <==> Registry.Lookup(m, c, LanguageLevelType).Ok? && Registry.Lookup(m, c, LanguageLevelType).value.LevelInfo?
    ensures r.Ok? ==> Registry.Lookup(m, c, LanguageLevelType) == Ok(LevelInfo(r.value))
  {
    var found := Registry.Lookup(m, c, LanguageLevelType);
    if found.Err? then Err(found.error)
    else if found.value.LevelInfo? then Ok(found.value.levels)
    else Err(PhpError)
  }

  /** On a mapping that keeps every information under its own type, only a missing entry fails. */
  lemma KeyedFindsLevelInformation(m: NodeMap, c: Cls)
    requires Keyed(m)
    ensures LevelInformation(m, c).Ok? <==> c in m && LanguageLevelType in m[c]
  {
    if c in m && LanguageLevelType in m[c] {
      assert TypeOf(m[c][LanguageLevelType]) == LanguageLevelType;
    }
  }

  /** The value written as `to`: the level, or null. */
  function ToValue(to: Option<Level>): (v: Value)
    ensures to.None? <==> v == Null
    ensures to.Some? ==> v == Lvl(to.value)
  {
    if to.Some? then Lvl(to.value) else Null
  }

  /**
   * leaveNode on a node value: the node afterwards and whether the call
   * returned. A failed lookup or getFrom leaves the node untouched; getTo
   * is asked about the node with `from` already written, so when it fails
   * that write stays.
   */
  function Stamp(m: NodeMap, n: Node, semi: KeywordTest): (Node, Outcome)
  {
    StampWith(LevelInformation(m, n.cls), n, semi)
  }

  /** The stamping steps once the information has been looked up. */
  function StampWith(info: Result<LanguageLevelInformation>, n: Node, semi: KeywordTest): (Node, Outcome)
  {
    if info.Err? then (n, Fail(info.error))
    else
      var from := GetFrom(info.value, n, semi);
      if from.Err? then (n, Fail(from.error))
      else
        var stamped := SetAttribute(n, "from", Lvl(from.value));
        var to := GetTo(info.value, stamped, semi);
        if to.Err? then (stamped, Fail(to.error))
        else (SetAttribute(stamped, "to", ToValue(to.value)), Pass)
  }

  /** The node as getTo sees it: with `from` written, when getFrom answered. */
  function WithFrom(m: NodeMap, n: Node, semi: KeywordTest): Node
  {
    var info := LevelInformation(m, n.cls);
    if info.Ok? && GetFrom(info.value, n, semi).Ok? then SetAttribute(n, "from", Lvl(GetFrom(info.value, n, semi).value))
    else n
  }

  /**
   * What leaveNode does: on success `from` is getFrom's level (never
   * null) and `to` is getTo's answer or null; an unregistered class
   * fails before any attribute is written; the class, the sub nodes and
   * every other attribute stay as they were.
   */
  lemma StampWrites(m: NodeMap, n: Node, semi: KeywordTest)
    ensures var (after, r) := Stamp(m, n, semi);
      after.cls == n.cls && after.props == n.props &&
      (forall k :: k != "from" && k != "to" ==> GetAttribute(after, k) == GetAttribute(n, k)) &&
      (LevelInformation(m, n.cls).Err? ==> after == n && r == Fail(LevelInformation(m, n.cls).error)) &&
      (r.Pass? <==>
        LevelInformation(m, n.cls).Ok? &&
        GetFrom(LevelInformation(m, n.cls).value, n, semi).Ok? &&
        GetTo(LevelInformation(m, n.cls).value, WithFrom(m, n, semi), semi).Ok?) &&
      (r.Pass? ==>
        GetAttribute(after, "from") == Lvl(GetFrom(LevelInformation(m, n.cls).value, n, semi).value) &&
        GetAttribute(after, "to") == ToValue(GetTo(LevelInformation(m, n.cls).value, WithFrom(m, n, semi), semi).value))
  {
  }

  /** `from` is never null after a successful leaveNode; `to` is a level or null. */
  lemma StampedFromIsLevel(m: NodeMap, n: Node, semi: KeywordTest)
    requires Stamp(m, n, semi).1.Pass?
    ensures GetAttribute(Stamp(m, n, semi).0, "from").Lvl?
    ensures GetAttribute(Stamp(m, n, semi).0, "to").Lvl? || GetAttribute(Stamp(m, n, semi).0, "to") == Null
  {
    StampWrites(m, n, semi);
  }

  /** An inspector that does not look at the `from` and `to` attributes. */
  ghost predicate IgnoresStamps(i: Inspector)
  {
    (forall n: Node, f: Value, semi: KeywordTest :: i(SetAttribute(n, "from", f), semi) == i(n, semi)) &&
    (forall n: Node, f: Value, t: Value, semi: KeywordTest ::
      i(SetAttribute(SetAttribute(n, "from", f), "to", t), semi) == i(n, semi))
  }

  /** A fixed level does not look at the node at all. */
  lemma FixedIgnoresStamps(l: Level)
    ensures IgnoresStamps(Fixed(l))
  {
  }

  /**
   * Repeating leaveNode on a stamped node writes the same values again,
   * for information whose inspectors do not read the stamps.
   */
  lemma StampIdempotent(m: NodeMap, n: Node, semi: KeywordTest)
    requires Stamp(m, n, semi).1.Pass?
    requires IgnoresStamps(LevelInformation(m, n.cls).value.from)
    requires LevelInformation(m, n.cls).value.to.Some? ==> IgnoresStamps(LevelInformation(m, n.cls).value.to.value)
    ensures Stamp(m, Stamp(m, n, semi).0, semi) == Stamp(m, n, semi)
  {
    var info := LevelInformation(m, n.cls).value;
    var from := GetFrom(info, n, semi).value;
    var withFrom := SetAttribute(n, "from", Lvl(from));
    var to := GetTo(info, withFrom, semi).value;
    var once := Stamp(m, n, semi).0;
    assert once == SetAttribute(withFrom, "to", ToValue(to));
    assert info.from(once, semi) == info.from(n, semi);
    if info.to.Some? {
      assert info.to.value(withFrom, semi) == info.to.value(n, semi);
      assert info.to.value(once, semi) == info.to.value(n, semi);
    }
    var twiceFrom := SetAttribute(once, "from", Lvl(from));
    assert twiceFrom.attrs == once.attrs;
    var twice := SetAttribute(twiceFrom, "to", ToValue(to));
    assert twice.attrs == once.attrs;
  }

  /** A parser node object: its class and sub nodes are fixed, its attributes are written in place. */
  class AstNode {
    const cls: Cls
    const props: seq<(string, Value)>
    var attrs: map<string, Value>

    constructor(n: Node)
      ensures Snapshot() == n
    {
      cls := n.cls;
      props := n.props;
      attrs := n.attrs;
    }

    /** The node as a value. */
    function Snapshot(): Node
      reads this
    {
      Node(cls, attrs, props)
    }

    /** setAttribute. */
    method SetAttribute(key: string, value: Value)
      modifies this
      ensures Snapshot() == PhpValues.SetAttribute(old(Snapshot()), key, value)
    {
      attrs := attrs[key := value];
    }
  }

  /** The visitor, given the mapping it reads. */
  class LanguageLevelVisitor {
    const mapping: NodeInformationMapping

    constructor(mapping: NodeInformationMapping)
      ensures this.mapping == mapping
    {
      this.mapping := mapping;
    }

    /** leaveNode: the node's attributes become those of Stamp; the mapping is only read. */
    method LeaveNode(node: AstNode, semi: KeywordTest) returns (r: Outcome)
      modifies node
      ensures (node.Snapshot(), r) == Stamp(mapping.nodeMap, old(node.Snapshot()), semi)
    {
      var n := node.Snapshot();
      var info := LevelInformation(mapping.nodeMap, node.cls);
      if info.Err? {
        return Fail(info.error);
      }
      var from := GetFrom(info.value, n, semi);
      if from.Err? {
        return Fail(from.error);
      }
      node.SetAttribute("from", Lvl(from.value));
      var to := GetTo(info.value, node.Snapshot(), semi);
      if to.Err? {
        return Fail(to.error);
      }
      node.SetAttribute("to", ToValue(to.value));
      r := Pass;
    }
  }

  // ---------------------------------------------------------------- lookup by exact class

  /** The mapping after the language-level registrar has run on an empty one. */
  function RegisteredLevels(): NodeMap
  {
    WithEntries(map[], LanguageLevelType, Informations, TableKeys(Informations))
  }

  /**
   * As written, `1 + 2` cannot be stamped: the registrar registers the
   * abstract BinaryOp, the parser produces BinaryOp\Plus, and the lookup is
   * by exact class.
   */
  lemma PlusNotStamped(n: Node, semi: KeywordTest)
    requires n.cls == Expr_BinaryOp_Plus
    ensures Stamp(RegisteredLevels(), n, semi) == (n, Fail(NodeNotRegistered(Expr_BinaryOp_Plus)))
  {
    PlusUnregistered();
  }

  /** BinaryOp\Plus has no entry of its own. */
  lemma PlusUnregistered()
    ensures Registry.Lookup(RegisteredLevels(), Expr_BinaryOp_Plus, LanguageLevelType) == Err(NodeNotRegistered(Expr_BinaryOp_Plus))
  {
    assert Informations(Expr_BinaryOp_Plus) == None;
    LookupAfterTable(map[], LanguageLevelType, Informations, Expr_BinaryOp_Plus);
  }

  /** BinaryOp is registered with addMapping's defaults. */
  lemma BinaryOpRegistered()
    ensures Registry.Lookup(RegisteredLevels(), Expr_BinaryOp, LanguageLevelType) == Ok(LevelInfo(Entry(Levels())))
  {
    assert Informations(Expr_BinaryOp) == Some(LevelInfo(Entry(Levels())));
    LookupAfterTable(map[], LanguageLevelType, Informations, Expr_BinaryOp);
  }

  /** The first of the classes that holds information of type t. */
  function FirstRegistered(m: NodeMap, cs: seq<Cls>, t: InfoType): (r: Option<Cls>)
    ensures r.Some? ==> r.value in cs && r.value in m && t in m[r.value]
    ensures r.None? <==> forall c :: c in cs ==> c !in m || t !in m[c]
  {
    if |cs| == 0 then None
    else if cs[0] in m && t in m[cs[0]] then Some(cs[0])
    else FirstRegistered(m, cs[1..], t)
  }

  /**
   * The lookup the registrations evidently rely on: the class itself,
   * else its nearest ancestor that holds language-level information.
   */
  function NearestLevelInformation(m: NodeMap, c: Cls): (r: Result<LanguageLevelInformation>)
    ensures c in m && LanguageLevelType in m[c] ==> r == LevelInformation(m, c)
  {
    var found := FirstRegistered(m, [c] + Ancestors(c), LanguageLevelType);
    if found.None? then Err(NodeNotRegistered(c)) else LevelInformation(m, found.value)
  }

  /** leaveNode with the nearest-ancestor lookup. */
  function StampNearest(m: NodeMap, n: Node, semi: KeywordTest): (Node, Outcome)
  {
    StampWith(NearestLevelInformation(m, n.cls), n, semi)
  }

  /** For a node of a registered class the corrected leaveNode does exactly what leaveNode does. */
  lemma NearestAgreesWhenRegistered(m: NodeMap, n: Node, semi: KeywordTest)
    requires n.cls in m && LanguageLevelType in m[n.cls]
    ensures StampNearest(m, n, semi) == Stamp(m, n, semi)
  {
  }

  /** An unregistered class whose parent is registered finds its parent's information. */
  lemma NearestIsParent(m: NodeMap, c: Cls, parent: Cls)
    requires Registry.Lookup(m, c, LanguageLevelType).Err? && |Ancestors(c)| > 0 && Ancestors(c)[0] == parent
    requires Registry.Lookup(m, parent, LanguageLevelType).Ok?
    ensures NearestLevelInformation(m, c) == LevelInformation(m, parent)
  {
    var cs := [c] + Ancestors(c);
    assert cs[0] == c && cs[1..] == Ancestors(c);
    assert FirstRegistered(m, cs, LanguageLevelType) == FirstRegistered(m, Ancestors(c), LanguageLevelType);
    assert FirstRegistered(m, Ancestors(c), LanguageLevelType) == Some(parent);
  }

  /** With the corrected lookup, `1 + 2` gets BinaryOp's levels: from PHP 5.2, no `to`. */
  lemma PlusStampedByNearest(n: Node, semi: KeywordTest)
    requires n.cls == Expr_BinaryOp_Plus
    ensures StampNearest(RegisteredLevels(), n, semi) ==
      (SetAttribute(SetAttribute(n, "from", Lvl(PHP5_2)), "to", Null), Pass)
  {
    PlusUnregistered();
    BinaryOpRegistered();
    NearestIsParent(RegisteredLevels(), Expr_BinaryOp_Plus, Expr_BinaryOp);
    ConstantLevelsAnswer(Levels(), n, semi);
    ConstantLevelsAnswer(Levels(), SetAttribute(n, "from", Lvl(PHP5_2)), semi);
  }
}
