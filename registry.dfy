/**
 * NodeInformationMapping, the two-level dictionary from node class to
 * information type to information, and SubNodeInformation, the builder of
 * per-class sub node slots that is registered in it and filled afterwards.
 */
module Registry {
  import opened Wrappers
  import opened PhpClasses
  import opened NodeInformation
  import opened SubNodeDefinitions

  /** The kinds of information, i.e. the classes get_class reports for them. */
  datatype InfoType = LanguageLevelType | SubNodeType | SuperclassType | SubclassType

  /** get_class of each kind of information. */
  function TypeName(t: InfoType): string
  {
    match t
    case LanguageLevelType => "Knevelina\\Modernity\\LanguageLevelInformation"
    case SubNodeType => "Knevelina\\Modernity\\SubNodeInformation"
    case SuperclassType => "Knevelina\\Modernity\\NodeInformation\\SuperclassInformation"
    case SubclassType => "Knevelina\\Modernity\\SubclassInformation"
  }

  /** An information object; a SubNodeInformation is a reference, shared with whoever built it. */
  datatype Information =
    | LevelInfo(levels: LanguageLevelInformation)
    | SubNodes(subNodes: SubNodeInformation)
    | Superclass(superclass: string)
    | Subclasses(subclasses: seq<string>)

  function TypeOf(info: Information): InfoType
  {
    match info
    case LevelInfo(_) => LanguageLevelType
    case SubNodes(_) => SubNodeType
    case Superclass(_) => SuperclassType
    case Subclasses(_) => SubclassType
  }

  /** The contents of `$nodeMap`. */
  type NodeMap = map<Cls, map<InfoType, Information>>

  function AlreadyRegistered(c: Cls, t: InfoType): Exception
  {
    InvalidArgumentException("Information of type \"" + TypeName(t) + "\" on node \"" + ClassName(c) + "\" has already been registered!")
  }

  function NodeNotRegistered(c: Cls): Exception
  {
    InvalidArgumentException("Information on node \"" + ClassName(c) + "\" has not been registered!")
  }

  function TypeNotRegistered(c: Cls, t: InfoType): Exception
  {
    InvalidArgumentException("Information of type \"" + TypeName(t) + "\" on node \"" + ClassName(c) + "\" has not been registered!")
  }

  /** map: add the information under its own type, refusing a second one of that type. */
  function Mapped(m: NodeMap, c: Cls, info: Information): Result<NodeMap>
  {
    var entries := if c in m then m[c] else map[];
    if TypeOf(info) in entries then Err(AlreadyRegistered(c, TypeOf(info)))
    else Ok(m[c := entries[TypeOf(info) := info]])
  }

  /** get: exact class, then exact type; each missing level has its own error. */
  function Lookup(m: NodeMap, c: Cls, t: InfoType): Result<Information>
  {
    if c !in m then Err(NodeNotRegistered(c))
    else if t !in m[c] then Err(TypeNotRegistered(c, t))
    else Ok(m[c][t])
  }

  /** Every information sits under its own type. */
  predicate Keyed(m: NodeMap)
  {
    forall c, t :: c in m && t in m[c] ==> TypeOf(m[c][t]) == t
  }

  /** After map(c, i), get(c, type(i)) returns i; mapping keeps every information under its own type. */
  lemma MapThenGet(m: NodeMap, c: Cls, info: Information)
    ensures Mapped(m, c, info).Ok? ==> Lookup(Mapped(m, c, info).value, c, TypeOf(info)) == Ok(info)
    ensures Keyed(m) && Mapped(m, c, info).Ok? ==> Keyed(Mapped(m, c, info).value)
  {
  }

  /** map fails exactly when the class already holds information of that type, and then names both. */
  lemma MapRefusesDuplicate(m: NodeMap, c: Cls, info: Information)
    ensures Mapped(m, c, info).Err? <==> Lookup(m, c, TypeOf(info)).Ok?
    ensures Mapped(m, c, info).Err? ==> Mapped(m, c, info).error == AlreadyRegistered(c, TypeOf(info))
  {
  }

  /** Informations of different types coexist under one class, in either order. */
  lemma TypesCoexist(m: NodeMap, c: Cls, a: Information, b: Information)
    requires TypeOf(a) != TypeOf(b)
    requires Mapped(m, c, a).Ok?
    ensures Mapped(Mapped(m, c, a).value, c, b).Ok? <==> Mapped(m, c, b).Ok?
    ensures Mapped(Mapped(m, c, a).value, c, b).Ok? ==>
      var m2 := Mapped(Mapped(m, c, a).value, c, b).value;
      Lookup(m2, c, TypeOf(a)) == Ok(a) && Lookup(m2, c, TypeOf(b)) == Ok(b)
  {
  }

  /**
   * map changes only the entry it writes: every other (class, type) pair
   * resolves as before (its error message can change from "node not
   * registered" to "type not registered" when the class is new).
   */
  lemma MapChangesOneEntry(m: NodeMap, c: Cls, info: Information, d: Cls, t: InfoType)
    requires Mapped(m, c, info).Ok?
    requires d != c || t != TypeOf(info)
    ensures Lookup(Mapped(m, c, info).value, d, t).Ok? <==> Lookup(m, d, t).Ok?
    ensures Lookup(m, d, t).Ok? ==> Lookup(Mapped(m, c, info).value, d, t) == Lookup(m, d, t)
    ensures d != c ==> Lookup(Mapped(m, c, info).value, d, t) == Lookup(m, d, t)
  {
  }

  /** get's two errors: an unknown class, and a known class without that type. */
  lemma LookupErrors(m: NodeMap, c: Cls, t: InfoType)
    ensures c !in m ==> Lookup(m, c, t) == Err(NodeNotRegistered(c))
    ensures c in m && t !in m[c] ==> Lookup(m, c, t) == Err(TypeNotRegistered(c, t))
    ensures Lookup(m, c, t).Ok? <==> c in m && t in m[c]
  {
  }

  /** Lookup is by exact class: information on a superclass is not found for its subclass. */
  lemma NoAncestorFallback(info: Information)
    ensures Lookup(map[Expr_AssignOp := map[TypeOf(info) := info]], Expr_AssignOp_Plus, TypeOf(info)) ==
      Err(NodeNotRegistered(Expr_AssignOp_Plus))
  {
  }

  class NodeInformationMapping {
    var nodeMap: NodeMap

    constructor()
      ensures nodeMap == map[]
    {
      nodeMap := map[];
    }

    /** map: on success the entry is written; on failure nothing changes. */
    method Map(c: Cls, info: Information) returns (r: Outcome)
      modifies this
      ensures Mapped(old(nodeMap), c, info).Ok? ==> r == Pass && nodeMap == Mapped(old(nodeMap), c, info).value
      ensures Mapped(old(nodeMap), c, info).Err? ==> r == Fail(Mapped(old(nodeMap), c, info).error) && nodeMap == old(nodeMap)
    {
      var t := TypeOf(info);
      if c in nodeMap && t in nodeMap[c] {
        return Fail(AlreadyRegistered(c, t));
      }
      if c !in nodeMap {
        nodeMap := nodeMap[c := map[]];
      }
      nodeMap := nodeMap[c := nodeMap[c][t := info]];
      return Pass;
    }

    function Get(c: Cls, t: InfoType): Result<Information>
      reads this
    {
      Lookup(nodeMap, c, t)
    }
  }

  // ---------------------------------------------------------------- registering a table

  /** No class of the mapping holds information of type t yet. */
  predicate Free(m: NodeMap, t: InfoType)
  {
    forall c :: c in m ==> t !in m[c]
  }

  /** The classes a constant table names. */
  function TableKeys(table: Cls -> Option<Information>): set<Cls>
  {
    set c: Cls | table(c).Some?
  }

  /** The mapping after the classes in `done` have been given their entry of the table, under type t. */
  function WithEntries(m: NodeMap, t: InfoType, table: Cls -> Option<Information>, done: set<Cls>): NodeMap
  {
    map c | c in m.Keys + (done * TableKeys(table)) ::
      if c in done && table(c).Some? then (if c in m then m[c] else map[])[t := table(c).value]
      else m[c]
  }

  /** Registering one more entry of the table is one successful `map` call. */
  lemma MapOneMore(m: NodeMap, t: InfoType, table: Cls -> Option<Information>, done: set<Cls>, c: Cls)
    requires Free(m, t) && c !in done && table(c).Some? && TypeOf(table(c).value) == t
    ensures Mapped(WithEntries(m, t, table, done), c, table(c).value) == Ok(WithEntries(m, t, table, done + {c}))
  {
    var before := WithEntries(m, t, table, done);
    var goal := WithEntries(m, t, table, done + {c});
    var entries := if c in before then before[c] else map[];
    assert entries == if c in m then m[c] else map[];
    var after := before[c := entries[t := table(c).value]];
    assert after.Keys == goal.Keys;
    forall d | d in goal
      ensures after[d] == goal[d]
    {
    }
    assert after == goal;
  }

  /**
   * After every entry of a table is registered on a mapping without
   * information of type t, get(c, t) finds the table's entry for the
   * classes it names and answers as before for the others.
   */
  lemma LookupAfterTable(m: NodeMap, t: InfoType, table: Cls -> Option<Information>, c: Cls)
    requires Free(m, t)
    ensures table(c).Some? ==> Lookup(WithEntries(m, t, table, TableKeys(table)), c, t) == Ok(table(c).value)
    ensures table(c).None? ==> Lookup(WithEntries(m, t, table, TableKeys(table)), c, t) == Lookup(m, c, t)
  {
  }

  /** Registering a table leaves information of every other type where it was. */
  lemma TableKeepsOtherTypes(m: NodeMap, t: InfoType, table: Cls -> Option<Information>, c: Cls, u: InfoType)
    requires u != t
    ensures Lookup(WithEntries(m, t, table, TableKeys(table)), c, u).Ok? == Lookup(m, c, u).Ok?
    ensures Lookup(m, c, u).Ok? ==> Lookup(WithEntries(m, t, table, TableKeys(table)), c, u) == Lookup(m, c, u)
  {
  }

  /** Class c already holds information of type t. */
  predicate Holds(m: NodeMap, c: Cls, t: InfoType)
  {
    c in m && t in m[c]
  }

  /** Some class the table names already holds information of type t. */
  predicate Clashes(m: NodeMap, t: InfoType, table: Cls -> Option<Information>)
  {
    exists c :: table(c).Some? && Holds(m, c, t)
  }

  /** When no class of the table holds information of type t, the table does not clash. */
  lemma NoClash(m: NodeMap, t: InfoType, table: Cls -> Option<Information>, done: set<Cls>)
    requires done == TableKeys(table)
    requires forall c :: c in done ==> !Holds(m, c, t)
    ensures !Clashes(m, t, table)
  {
    forall c | table(c).Some?
      ensures !Holds(m, c, t)
    {
      assert c in TableKeys(table);
    }
  }

  /**
   * Register every entry of a table, in no particular order. On a mapping
   * without information of type t every call succeeds and the table is
   * added. The registration fails exactly when a class of the table
   * already holds information of type t: the map call for such a class
   * throws, if an earlier one has not.
   */
  method MapTable(mapping: NodeInformationMapping, t: InfoType, table: Cls -> Option<Information>) returns (r: Outcome)
    requires forall c :: table(c).Some? ==> TypeOf(table(c).value) == t
    modifies mapping
    ensures Free(old(mapping.nodeMap), t) ==> r == Pass && mapping.nodeMap == WithEntries(old(mapping.nodeMap), t, table, TableKeys(table))
    ensures r.Fail? <==> Clashes(old(mapping.nodeMap), t, table)
  {
    ghost var start := mapping.nodeMap;
    var todo := TableKeys(table);
    ghost var done: set<Cls> := {};
    while todo != {}
      invariant todo + done == TableKeys(table) && todo !! done
      invariant Free(start, t) ==> mapping.nodeMap == WithEntries(start, t, table, done)
      invariant forall c :: c in done ==> !Holds(start, c, t)
      invariant forall c :: c in todo ==> (Holds(mapping.nodeMap, c, t) <==> Holds(start, c, t))
      decreases todo
    {
      var c :| c in todo;
      if Free(start, t) {
        MapOneMore(start, t, table, done, c);
      }
      r := mapping.Map(c, table(c).value);
      if r.Fail? {
        assert table(c).Some? && Holds(start, c, t);
        return;
      }
      todo := todo - {c};
      done := done + {c};
    }
    NoClash(start, t, table, done);
    return Pass;
  }

  // ---------------------------------------------------------------- sub node information

  /** One entry of `$subNodeDefinitions`: a slot name and its definition. */
  datatype Slot = Slot(name: string, definition: Definition)

  /** `isset($this->subNodeDefinitions[$name])`: some slot already has the name. */
  predicate Defined(slots: seq<Slot>, name: string)
  {
    exists i :: 0 <= i < |slots| && slots[i].name == name
  }

  /** No two slots share a name. */
  predicate DistinctNames(slots: seq<Slot>)
  {
    forall i, j :: 0 <= i < j < |slots| ==> slots[i].name != slots[j].name
  }

  /**
   * Slots as SubNodeInformation builds them: distinct names (they are the
   * keys of an array) and normalised definitions, whose class names hold
   * no duplicate.
   */
  predicate Normal(slots: seq<Slot>)
  {
    DistinctNames(slots) && forall i :: 0 <= i < |slots| ==> DuplicateFree(slots[i].definition.classNames)
  }

  function DuplicateSlot(name: string): Exception
  {
    InvalidArgumentException("Sub node definition is already defined for sub node \"" + name + "\"!")
  }

  /** with: append a slot, refusing a name that is already defined. */
  function WithSlot(slots: seq<Slot>, name: string, d: Definition): Result<seq<Slot>>
  {
    if Defined(slots, name) then Err(DuplicateSlot(name)) else Ok(slots + [Slot(name, d)])
  }

  /** `with` only ever adds a new name, so the slot names stay distinct. */
  lemma WithKeepsNamesDistinct(slots: seq<Slot>, name: string, d: Definition)
    requires DistinctNames(slots)
    ensures WithSlot(slots, name, d).Ok? <==> !Defined(slots, name)
    ensures WithSlot(slots, name, d).Ok? ==> DistinctNames(WithSlot(slots, name, d).value)
  {
  }

  /** `with` of a normalised definition keeps the slots normal. */
  lemma WithKeepsNormal(slots: seq<Slot>, name: string, d: Definition)
    requires Normal(slots) && DuplicateFree(d.classNames)
    ensures WithSlot(slots, name, d).Ok? ==> Normal(WithSlot(slots, name, d).value)
  {
    WithKeepsNamesDistinct(slots, name, d);
  }

  /** withMultiple: `with` for each name in turn, stopping at the first duplicate. */
  function WithEach(slots: seq<Slot>, names: seq<string>, d: Definition): (seq<Slot>, Outcome)
    decreases |names|
  {
    if |names| == 0 then (slots, Pass)
    else
      var next := WithSlot(slots, names[0], d);
      if next.Err? then (slots, Fail(next.error)) else WithEach(next.value, names[1..], d)
  }

  /** How many names withMultiple adds before it stops. */
  function AddedCount(slots: seq<Slot>, names: seq<string>, d: Definition): (k: nat)
    ensures k <= |names|
    decreases |names|
  {
    if |names| == 0 then 0
    else
      var next := WithSlot(slots, names[0], d);
      if next.Err? then 0 else 1 + AddedCount(next.value, names[1..], d)
  }

  /** withMultiple keeps the slots it started with and appends the names it added, in order. */
  lemma {:induction false} WithEachAppends(slots: seq<Slot>, names: seq<string>, d: Definition)
    ensures WithEach(slots, names, d).0 == slots + Each(names[..AddedCount(slots, names, d)], d)
    decreases |names|
  {
    if |names| == 0 || WithSlot(slots, names[0], d).Err? {
      assert slots + Each(names[..0], d) == slots;
    } else {
      var next := WithSlot(slots, names[0], d).value;
      var rest := names[1..];
      var k := AddedCount(next, rest, d);
      WithEachAppends(next, rest, d);
      assert names[..k + 1] == [names[0]] + rest[..k];
      EachConcat([names[0]], rest[..k], d);
    }
  }

  /**
   * withMultiple succeeds exactly when it added every name; otherwise it
   * stops with the error of the first name it could not add.
   */
  lemma {:induction false} WithEachStops(slots: seq<Slot>, names: seq<string>, d: Definition)
    ensures WithEach(slots, names, d).1.Pass? <==> AddedCount(slots, names, d) == |names|
    ensures AddedCount(slots, names, d) < |names| ==>
      WithEach(slots, names, d).1 == Fail(DuplicateSlot(names[AddedCount(slots, names, d)]))
    decreases |names|
  {
    if |names| > 0 && WithSlot(slots, names[0], d).Ok? {
      var next := WithSlot(slots, names[0], d).value;
      WithEachStops(next, names[1..], d);
    }
  }

  /** The slots that the given names get, all with the same definition. */
  function Each(names: seq<string>, d: Definition): (r: seq<Slot>)
    ensures |r| == |names| && forall i :: 0 <= i < |names| ==> r[i] == Slot(names[i], d)
  {
    if |names| == 0 then [] else [Slot(names[0], d)] + Each(names[1..], d)
  }

  lemma EachConcat(a: seq<string>, b: seq<string>, d: Definition)
    ensures Each(a + b, d) == Each(a, d) + Each(b, d)
  {
    assert forall i :: 0 <= i < |a + b| ==> Each(a + b, d)[i] == (Each(a, d) + Each(b, d))[i];
  }

  /** What `include` passes back to `with`: the class names and the array flag, not the nullable flag. */
  function Copied(d: Definition): Definition
  {
    Make(Many(d.classNames), d.isArray, false)
  }

  /** A copied slot has the same class names and array flag as the original. */
  lemma CopyKeepsNamesAndArray(names: ClassNames, isArray: bool, nullable: bool)
    ensures Copied(Make(names, isArray, nullable)).classNames == Make(names, isArray, nullable).classNames
    ensures Copied(Make(names, isArray, nullable)).isArray == isArray
    ensures !Copied(Make(names, isArray, nullable)).nullable
  {
    var d := Make(names, isArray, nullable);
    SortedSetUnique(Copied(d).classNames, d.classNames);
  }

  /** include: `with` for each slot of the other class in turn, stopping at the first duplicate. */
  function IncludeEach(slots: seq<Slot>, from: seq<Slot>): (seq<Slot>, Outcome)
    decreases |from|
  {
    if |from| == 0 then (slots, Pass)
    else
      var next := WithSlot(slots, from[0].name, Copied(from[0].definition));
      if next.Err? then (slots, Fail(next.error)) else IncludeEach(next.value, from[1..])
  }

  /** withMultiple of a normalised definition keeps the slots normal, also when it stops early. */
  lemma {:induction false} WithEachKeepsNormal(slots: seq<Slot>, names: seq<string>, d: Definition)
    requires Normal(slots) && DuplicateFree(d.classNames)
    ensures Normal(WithEach(slots, names, d).0)
    decreases |names|
  {
    if |names| > 0 {
      WithKeepsNormal(slots, names[0], d);
      if WithSlot(slots, names[0], d).Ok? {
        WithEachKeepsNormal(WithSlot(slots, names[0], d).value, names[1..], d);
      }
    }
  }

  /** include appends normalised copies only, so the slots stay normal, also when it stops early. */
  lemma {:induction false} IncludeEachKeepsNormal(slots: seq<Slot>, from: seq<Slot>)
    requires Normal(slots)
    ensures Normal(IncludeEach(slots, from).0)
    decreases |from|
  {
    if |from| > 0 {
      var d := Copied(from[0].definition);
      WithKeepsNormal(slots, from[0].name, d);
      if WithSlot(slots, from[0].name, d).Ok? {
        IncludeEachKeepsNormal(WithSlot(slots, from[0].name, d).value, from[1..]);
      }
    }
  }

  /** The copies `include` appends when no name clashes. */
  function Copies(from: seq<Slot>): (r: seq<Slot>)
    ensures |r| == |from|
  {
    if |from| == 0 then [] else [Slot(from[0].name, Copied(from[0].definition))] + Copies(from[1..])
  }

  /** Each copy keeps its slot's name and copies its definition, in the same position. */
  lemma {:induction false} CopiesAt(from: seq<Slot>, i: int)
    requires 0 <= i < |from|
    ensures Copies(from)[i] == Slot(from[i].name, Copied(from[i].definition))
    decreases |from|
  {
    if i > 0 {
      CopiesAt(from[1..], i - 1);
    }
  }

  /**
   * Including a class whose slot names are new appends a copy of every
   * slot of it, in its order, and succeeds.
   */
  lemma {:induction false} IncludeCopiesAll(slots: seq<Slot>, from: seq<Slot>)
    requires DistinctNames(from)
    requires Fresh(slots, from)
    ensures IncludeEach(slots, from) == (slots + Copies(from), Pass)
    decreases |from|
  {
    if |from| > 0 {
      var head := Slot(from[0].name, Copied(from[0].definition));
      var next := slots + [head];
      HeadIsNew(slots, from);
      TailStaysFresh(slots, from, next);
      IncludeStep(slots, from);
      IncludeCopiesAll(next, from[1..]);
      Regroup(slots, head, Copies(from[1..]));
    } else {
      assert slots + Copies(from) == slots;
    }
  }

  /** None of the slots to copy has a name already defined. */
  predicate Fresh(slots: seq<Slot>, from: seq<Slot>)
  {
    forall i, j :: 0 <= i < |from| && 0 <= j < |slots| ==> from[i].name != slots[j].name
  }

  /** One step of include when the first name is new. */
  lemma IncludeStep(slots: seq<Slot>, from: seq<Slot>)
    requires |from| > 0 && !Defined(slots, from[0].name)
    ensures IncludeEach(slots, from) == IncludeEach(slots + [Slot(from[0].name, Copied(from[0].definition))], from[1..])
    ensures Copies(from) == [Slot(from[0].name, Copied(from[0].definition))] + Copies(from[1..])
  {
  }

  /** After the first copy, the remaining slots' names are still new and distinct. */
  lemma TailStaysFresh(slots: seq<Slot>, from: seq<Slot>, next: seq<Slot>)
    requires |from| > 0 && DistinctNames(from) && Fresh(slots, from)
    requires next == slots + [Slot(from[0].name, Copied(from[0].definition))]
    ensures DistinctNames(from[1..]) && Fresh(next, from[1..])
  {
  }

  /** The first slot to copy is not yet defined. */
  lemma HeadIsNew(slots: seq<Slot>, from: seq<Slot>)
    requires |from| > 0 && Fresh(slots, from)
    ensures !Defined(slots, from[0].name)
  {
  }

  /** Appending one slot and then a list is appending the slot followed by the list. */
  lemma Regroup(slots: seq<Slot>, head: Slot, rest: seq<Slot>)
    ensures (slots + [head]) + rest == slots + ([head] + rest)
  {
  }

  class SubNodeInformation {
    const mapping: NodeInformationMapping
    var slots: seq<Slot>

    constructor(mapping: NodeInformationMapping)
      ensures this.mapping == mapping && slots == []
    {
      this.mapping := mapping;
      slots := [];
    }

    function GetSubNodeDefinitions(): seq<Slot>
      reads this
    {
      slots
    }

    /**
     * with(name, classNames, isArray, nullable): builds the definition with
     * the normalising constructor and appends it under a new name.
     */
    method With(name: string, classNames: ClassNames, isArray: bool := false, nullable: bool := false)
      returns (r: Outcome)
      modifies this
      ensures var next := WithSlot(old(slots), name, Make(classNames, isArray, nullable));
        (next.Ok? ==> r == Pass && slots == next.value) &&
        (next.Err? ==> r == Fail(next.error) && slots == old(slots))
    {
      if Defined(slots, name) {
        return Fail(DuplicateSlot(name));
      }
      slots := slots + [Slot(name, Make(classNames, isArray, nullable))];
      return Pass;
    }

    /** withMultiple: the loop of `with` calls over the names. */
    method WithMultiple(classNames: ClassNames, isArray: bool, names: seq<string>) returns (r: Outcome)
      modifies this
      ensures (slots, r) == WithEach(old(slots), names, Make(classNames, isArray, false))
    {
      var d := Make(classNames, isArray, false);
      var i := 0;
      while i < |names|
        invariant 0 <= i <= |names|
        invariant WithEach(old(slots), names, d) == WithEach(slots, names[i..], d)
      {
        assert names[i..][1..] == names[i + 1..];
        r := With(names[i], classNames, isArray);
        if r.Fail? {
          return;
        }
        i := i + 1;
      }
      return Pass;
    }

    /** withExpr: single Expr slots, 'expr' by default. */
    method WithExpr(subNode: string := "expr", others: seq<string> := []) returns (r: Outcome)
      modifies this
      ensures (slots, r) == WithEach(old(slots), [subNode] + others, Make(One("PhpParser\\Node\\Expr"), false, false))
    {
      r := WithMultiple(One(ClassName(Expr)), false, [subNode] + others);
    }

    /** withExprs: arrays of Expr, 'exprs' by default. */
    method WithExprs(subNode: string := "exprs", others: seq<string> := []) returns (r: Outcome)
      modifies this
      ensures (slots, r) == WithEach(old(slots), [subNode] + others, Make(One("PhpParser\\Node\\Expr"), true, false))
    {
      r := WithMultiple(One(ClassName(Expr)), true, [subNode] + others);
    }

    /** withStmts: Stmt slots declared as single values, 'stmts' by default. */
    method WithStmts(subNode: string := "stmts", others: seq<string> := []) returns (r: Outcome)
      modifies this
      ensures (slots, r) == WithEach(old(slots), [subNode] + others, Make(One("PhpParser\\Node\\Stmt"), false, false))
    {
      r := WithMultiple(One(ClassName(Stmt)), false, [subNode] + others);
    }

    /** withParams: 'params', an array of Param. */
    method WithParams() returns (r: Outcome)
      modifies this
      ensures var next := WithSlot(old(slots), "params", Make(One("PhpParser\\Node\\Param"), true, false));
        (next.Ok? ==> r == Pass && slots == next.value) && (next.Err? ==> r == Fail(next.error) && slots == old(slots))
    {
      r := With("params", One(ClassName(Param)), true);
    }

    /** withAttrGroups: 'attrGroups', an array of AttributeGroup. */
    method WithAttrGroups() returns (r: Outcome)
      modifies this
      ensures var next := WithSlot(old(slots), "attrGroups", Make(One("PhpParser\\Node\\AttributeGroup"), true, false));
        (next.Ok? ==> r == Pass && slots == next.value) && (next.Err? ==> r == Fail(next.error) && slots == old(slots))
    {
      r := With("attrGroups", One(ClassName(AttributeGroup)), true);
    }

    /** withArgs: 'args', an array of Arg or VariadicPlaceholder. */
    method WithArgs() returns (r: Outcome)
      modifies this
      ensures var next := WithSlot(old(slots), "args",
          Make(Many(["PhpParser\\Node\\Arg", "PhpParser\\Node\\VariadicPlaceholder"]), true, false));
        (next.Ok? ==> r == Pass && slots == next.value) && (next.Err? ==> r == Fail(next.error) && slots == old(slots))
    {
      r := With("args", Many([ClassName(Arg), ClassName(VariadicPlaceholder)]), true);
    }

    /** withType: a single null, Identifier, Name or ComplexType, in 'type' by default. */
    method WithType(subName: string := "type") returns (r: Outcome)
      modifies this
      ensures var next := WithSlot(old(slots), subName, Make(TypeNames(), false, false));
        (next.Ok? ==> r == Pass && slots == next.value) && (next.Err? ==> r == Fail(next.error) && slots == old(slots))
    {
      r := With(subName, TypeNames());
    }

    /** withReturn: withType on 'returnType'. */
    method WithReturn() returns (r: Outcome)
      modifies this
      ensures var next := WithSlot(old(slots), "returnType", Make(TypeNames(), false, false));
        (next.Ok? ==> r == Pass && slots == next.value) && (next.Err? ==> r == Fail(next.error) && slots == old(slots))
    {
      r := WithType("returnType");
    }

    /**
     * include: copy every slot of the class's registered sub node
     * information (a snapshot of it, even when that is this object);
     * an unregistered class fails before anything changes.
     */
    method Include(c: Cls) returns (r: Outcome)
      modifies this
      ensures var found := Lookup(old(mapping.nodeMap), c, SubNodeType);
        (found.Err? ==> r == Fail(found.error) && slots == old(slots)) &&
        (found.Ok? && !found.value.SubNodes? ==> r == Fail(PhpError) && slots == old(slots)) &&
        (found.Ok? && found.value.SubNodes? ==> (slots, r) == IncludeEach(old(slots), old(found.value.subNodes.slots)))
    {
      var found := mapping.Get(c, SubNodeType);
      if found.Err? {
        return Fail(found.error);
      }
      if !found.value.SubNodes? {
        return Fail(PhpError);
      }
      var from := found.value.subNodes.slots;
      var i := 0;
      while i < |from|
        invariant 0 <= i <= |from|
        invariant IncludeEach(old(slots), from) == IncludeEach(slots, from[i..])
      {
        assert from[i..][1..] == from[i + 1..];
        assert from[i..][0] == from[i];
        ghost var before := slots;
        r := With(from[i].name, Many(from[i].definition.classNames), from[i].definition.isArray);
        assert (slots, r) == IncludeEach(before, from[i..]) || (r.Pass? && IncludeEach(before, from[i..]) == IncludeEach(slots, from[i + 1..]));
        if r.Fail? {
          return;
        }
        i := i + 1;
      }
      return Pass;
    }
  }

  /** withType's class names. */
  function TypeNames(): ClassNames
  {
    Many([NULL, "PhpParser\\Node\\Identifier", "PhpParser\\Node\\Name", "PhpParser\\Node\\ComplexType"])
  }

  /** A type slot accepts null, Identifier, Name and ComplexType, as one value. */
  lemma TypeSlotAccepts(className: string)
    ensures Accepts(Make(TypeNames(), false, false), className) <==>
      className in [NULL, ClassName(Identifier), ClassName(Name), ClassName(ComplexType)]
    ensures !Make(TypeNames(), false, false).isArray
  {
  }
}
