/**
 * SubNodeInformationRegistrar: for each node class, in a fixed order, a
 * fresh SubNodeInformation is mapped and then filled by a chain of builder
 * calls (`with`, `withExpr`, ..., `include`). The chains are kept as data
 * (one Step per builder call) and run against the builder's semantics.
 */
module SubNodeRegistrar {
  import opened Wrappers
  import opened PhpClasses
  import opened SubNodeDefinitions
  import opened Registry

  /** One builder call of a registration chain, with its arguments. */
  datatype Step =
    | With(name: string, classNames: ClassNames, isArray: bool, nullable: bool)
    | WithExpr(subNode: string, others: seq<string>)
    | WithExprs(subNode: string, others: seq<string>)
    | WithStmts(subNode: string, others: seq<string>)
    | WithParams
    | WithAttrGroups
    | WithArgs
    | WithType(subName: string)
    | WithReturn
    | Include(from: Cls)

  /** The chain each class is registered with; classes registered bare have none. */
  function Recipe(c: Cls): seq<Step>
  {
    match c
    case Expr_ArrayDimFetch => [
      WithExpr("var", []),
      With("dim", One("PhpParser\\Node\\Expr"), false, true)]
    case Expr_ArrayItem => [
      With("key", One("PhpParser\\Node\\Expr"), false, true),
      WithExpr("value", [])]
    case Expr_Array_ => [
      With("items", One("PhpParser\\Node\\Expr\\ArrayItem"), true, true)]
    case Expr_ArrowFunction => [
      WithParams,
      WithReturn,
      WithExpr("expr", []),
      WithAttrGroups]
    case Expr_Assign => [
      WithExpr("var", ["expr"])]
    case Expr_AssignOp => [
      WithExpr("var", ["expr"])]
    case Expr_AssignRef => [
      WithExpr("var", ["expr"])]
    case Expr_BinaryOp => [
      WithExpr("left", ["right"])]
    case Expr_BitwiseNot => [
      WithExpr("expr", [])]
    case Expr_BooleanNot => [
      WithExpr("expr", [])]
    case Expr_Cast => [
      WithExpr("expr", [])]
    case Expr_ClassConstFetch => [
      With("class", Many(["PhpParser\\Node\\Name", "PhpParser\\Node\\Expr"]), false, false),
      With("name", One("PhpParser\\Node\\Identifier"), false, false)]
    case Expr_Clone_ => [
      WithExpr("expr", [])]
    case Expr_Closure => [
      WithParams,
      With("uses", One("PhpParser\\Node\\Expr\\ClosureUse"), true, false),
      WithReturn,
      WithStmts("stmts", []),
      WithAttrGroups]
    case Expr_ClosureUse => [
      With("var", One("PhpParser\\Node\\Expr\\Variable"), false, false)]
    case Expr_ConstFetch => [
      With("name", One("PhpParser\\Node\\Name"), false, false)]
    case Expr_Empty_ => [
      WithExpr("expr", [])]
    case Expr_ErrorSuppress => [
      WithExpr("expr", [])]
    case Expr_Eval_ => [
      WithExpr("expr", [])]
    case Expr_Exit_ => [
      With("expr", One("PhpParser\\Node\\Expr"), false, true)]
    case Expr_FuncCall => [
      With("name", Many(["PhpParser\\Node\\Name", "PhpParser\\Node\\Expr"]), false, false),
      WithArgs]
    case Expr_Include_ => [
      WithExpr("expr", [])]
    case Expr_Instanceof_ => [
      WithExpr("expr", []),
      With("class", Many(["PhpParser\\Node\\Name", "PhpParser\\Node\\Expr"]), false, false)]
    case Expr_Isset_ => [
      WithExprs("vars", [])]
    case Expr_List_ => [
      With("items", One("PhpParser\\Node\\Expr\\ArrayItem"), true, true)]
    case Expr_Match_ => [
      WithExpr("cond", []),
      With("arms", One("PhpParser\\Node\\MatchArm"), true, false)]
    case Expr_MethodCall => [
      WithExpr("var", []),
      With("name", Many(["PhpParser\\Node\\Identifier", "PhpParser\\Node\\Expr"]), false, false),
      WithArgs]
    case Expr_New_ => [
      With("class", Many(["PhpParser\\Node\\Name", "PhpParser\\Node\\Expr", "PhpParser\\Node\\Stmt\\Class_"]), false, false),
      WithArgs]
    case Expr_NullsafeMethodCall => [
      WithExpr("var", []),
      With("name", Many(["PhpParser\\Node\\Identifier", "PhpParser\\Node\\Expr"]), false, false),
      WithArgs]
    case Expr_NullsafePropertyFetch => [
      WithExpr("var", []),
      With("name", Many(["PhpParser\\Node\\Identifier", "PhpParser\\Node\\Expr"]), false, false)]
    case Expr_PostDec => [
      WithExpr("var", [])]
    case Expr_PostInc => [
      WithExpr("var", [])]
    case Expr_PreDec => [
      WithExpr("var", [])]
    case Expr_PreInc => [
      WithExpr("var", [])]
    case Expr_Print_ => [
      WithExpr("expr", [])]
    case Expr_PropertyFetch => [
      WithExpr("expr", []),
      With("name", Many(["PhpParser\\Node\\Identifier", "PhpParser\\Node\\Expr"]), false, false)]
    case Expr_StaticCall => [
      With("class", Many(["PhpParser\\Node\\Name", "PhpParser\\Node\\Expr"]), false, false),
      With("name", Many(["PhpParser\\Node\\Identifier", "PhpParser\\Node\\Expr"]), false, false),
      WithArgs]
    case Expr_StaticPropertyFetch => [
      With("class", Many(["PhpParser\\Node\\Name", "PhpParser\\Node\\Expr"]), false, false),
      With("name", Many(["PhpParser\\Node\\VarLikeIdentifier", "PhpParser\\Node\\Expr"]), false, false)]
    case Expr_Ternary => [
      WithExpr("cond", ["else"]),
      With("if", One("PhpParser\\Node\\Expr"), false, true)]
    case Expr_Throw_ => [
      WithExpr("expr", [])]
    case Expr_UnaryMinus => [
      WithExpr("expr", [])]
    case Expr_UnaryPlus => [
      WithExpr("expr", [])]
    case Expr_Variable => [
      With("name", Many([STRING, "PhpParser\\Node\\Expr"]), false, false)]
    case Expr_YieldFrom => [
      WithExpr("expr", [])]
    case Expr_Yield_ => [
      With("key", One("PhpParser\\Node\\Expr"), false, true),
      With("value", One("PhpParser\\Node\\Expr"), false, true)]
    case Scalar_DNumber => [
      With("value", One(FLOAT), false, false)]
    case Scalar_Encapsed => [
      WithExprs("parts", [])]
    case Scalar_EncapsedStringPart => [
      With("value", One(STRING), false, false)]
    case Scalar_LNumber => [
      With("value", One(INT), false, false)]
    case Scalar_String_ => [
      With("value", One(STRING), false, false)]
    case Stmt_Break_ => [
      With("num", One("PhpParser\\Node\\Expr"), false, true)]
    case Stmt_Case_ => [
      With("cond", One("PhpParser\\Node\\Expr"), false, true),
      WithStmts("stmts", [])]
    case Stmt_Catch_ => [
      With("types", One("PhpParser\\Node\\Name"), true, false),
      With("var", One("PhpParser\\Node\\Expr\\Variable"), false, true),
      WithStmts("stmts", [])]
    case Stmt_ClassConst => [
      With("consts", One("PhpParser\\Node\\Const_"), true, false),
      WithAttrGroups]
    case Stmt_ClassLike => [
      With("name", One("PhpParser\\Node\\Identifier"), false, true),
      WithStmts("stmts", []),
      WithAttrGroups]
    case Stmt_ClassMethod => [
      With("name", One("PhpParser\\Node\\Identifier"), false, false),
      WithParams,
      WithReturn,
      WithStmts("stmts", []),
      WithAttrGroups]
    case Stmt_Class_ => [
      Include(Stmt_ClassLike),
      With("extends", One("PhpParser\\Node\\Name"), false, true),
      With("implements", One("PhpParser\\Node\\Name"), true, false)]
    case Stmt_Const_ => [
      With("consts", One("PhpParser\\Node\\Const_"), true, false)]
    case Stmt_Continue_ => [
      With("num", One("PhpParser\\Node\\Expr"), false, true)]
    case Stmt_DeclareDeclare => [
      With("key", One("PhpParser\\Node\\Identifier"), false, false),
      WithExpr("value", [])]
    case Stmt_Declare_ => [
      With("declares", One("PhpParser\\Node\\Stmt\\DeclareDeclare"), true, false),
      WithStmts("stmts", [])]
    case Stmt_Do_ => [
      WithStmts("stmts", []),
      WithExpr("cond", [])]
    case Stmt_Echo_ => [
      WithExprs("exprs", [])]
    case Stmt_ElseIf_ => [
      WithExpr("cond", []),
      WithStmts("stmts", [])]
    case Stmt_Else_ => [
      WithStmts("stmts", [])]
    case Builder_EnumCase => [
      With("name", One("PhpParser\\Node\\Identifier"), false, false),
      With("expr", One("PhpParser\\Node\\Expr"), false, true),
      WithAttrGroups]
    case Stmt_Enum_ => [
      With("scalarType", One("PhpParser\\Node\\Identifier"), false, true),
      With("implements", One("PhpParser\\Node\\Name"), true, false)]
    case Stmt_Expression => [
      WithExpr("expr", [])]
    case Stmt_Finally_ => [
      WithStmts("stmts", [])]
    case Stmt_For_ => [
      WithExprs("init", ["cond", "loop"]),
      WithStmts("stmts", [])]
    case Stmt_Foreach_ => [
      WithExpr("expr", ["valueVar"]),
      With("keyVar", One("PhpParser\\Node\\Expr"), false, true),
      WithStmts("stmts", [])]
    case Stmt_Function_ => [
      With("name", One("PhpParser\\Node\\Identifier"), false, false),
      WithParams,
      WithReturn,
      WithStmts("stmts", []),
      WithAttrGroups]
    case Stmt_Global_ => [
      WithExprs("vars", [])]
    case Stmt_Goto_ => [
      With("name", One("PhpParser\\Node\\Identifier"), false, false)]
    case Stmt_GroupUse => [
      With("prefix", One("PhpParser\\Node\\Name"), false, false),
      With("uses", One("PhpParser\\Node\\Stmt\\UseUse"), true, false)]
    case Stmt_HaltCompiler => [
      With("remaining", One(STRING), false, false)]
    case Stmt_If_ => [
      WithExpr("cond", []),
      WithStmts("stmts", []),
      With("elseifs", One("PhpParser\\Node\\Stmt\\ElseIf_"), true, false),
      With("else", One("PhpParser\\Node\\Stmt\\Else_"), false, true)]
    case Stmt_InlineHTML => [
      With("value", One(STRING), false, false)]
    case Stmt_Interface_ => [
      With("extends", One("PhpParser\\Node\\Name"), true, false)]
    case Stmt_Label => [
      With("name", One("PhpParser\\Node\\Identifier"), false, false)]
    case Stmt_Namespace_ => [
      With("name", One("PhpParser\\Node\\Name"), false, true),
      WithStmts("stmts", [])]
    case Stmt_Property => [
      With("props", One("PhpParser\\Node\\Stmt\\PropertyProperty"), true, false),
      WithType("type"),
      WithAttrGroups]
    case Stmt_PropertyProperty => [
      With("name", One("PhpParser\\Node\\VarLikeIdentifier"), false, false),
      With("default", One("PhpParser\\Node\\Expr"), false, true)]
    case Stmt_Return_ => [
      With("expr", One("PhpParser\\Node\\Expr"), false, true)]
    case Stmt_StaticVar => [
      With("var", One("PhpParser\\Node\\Expr\\Variable"), false, false),
      With("default", One("PhpParser\\Node\\Expr"), false, true)]
    case Stmt_Static_ => [
      With("vars", One("PhpParser\\Node\\Stmt\\StaticVar"), true, false)]
    case Stmt_Switch_ => [
      WithExpr("cond", []),
      With("cases", One("PhpParser\\Node\\Stmt\\Case_"), true, false)]
    case Stmt_Throw_ => [
      WithExpr("expr", [])]
    case Stmt_TraitUse => [
      With("traits", One("PhpParser\\Node\\Name"), true, false),
      With("adaptations", One("PhpParser\\Node\\Stmt\\TraitUseAdaptation"), true, false)]
    case Stmt_TraitUseAdaptation => [
      With("trait", One("PhpParser\\Node\\Name"), false, true),
      With("method", One("PhpParser\\Node\\Identifier"), false, false)]
    case Stmt_Trait_ => [
      Include(Stmt_ClassLike)]
    case Stmt_TryCatch => [
      WithStmts("stmts", []),
      With("catches", One("PhpParser\\Node\\Stmt\\Catch_"), true, false),
      With("finally", One("PhpParser\\Node\\Stmt\\Finally_"), false, true)]
    case Stmt_Unset_ => [
      WithExprs("vars", [])]
    case Stmt_UseUse => [
      With("name", One("PhpParser\\Node\\Name"), false, false),
      With("alias", One("PhpParser\\Node\\Identifier"), false, true)]
    case Stmt_Use_ => [
      With("uses", One("PhpParser\\Node\\Stmt\\UseUse"), true, false)]
    case Stmt_While_ => [
      WithExpr("cond", []),
      WithStmts("stmts", [])]
    case Stmt_TraitUseAdaptation_Alias => [
      Include(Stmt_TraitUseAdaptation),
      With("newModifier", One(INT), false, true),
      With("newName", One("PhpParser\\Node\\Identifier"), false, true)]
    case Stmt_TraitUseAdaptation_Precedence => [
      Include(Stmt_TraitUseAdaptation),
      With("insteadof", One("PhpParser\\Node\\Name"), true, false)]
    case Arg => [
      With("name", One("PhpParser\\Node\\Identifier"), false, true),
      WithExpr("value", [])]
    case Attribute => [
      With("name", One("PhpParser\\Node\\Name"), false, false),
      With("args", One("PhpParser\\Node\\Arg"), true, false)]
    case AttributeGroup => [
      With("attrs", One("PhpParser\\Node\\Attribute"), true, false)]
    case Const_ => [
      With("name", One("PhpParser\\Node\\Identifier"), false, false),
      WithExpr("value", []),
      With("namespacedName", One("PhpParser\\Node\\Name"), false, true)]
    case Identifier => [
      With("name", One(STRING), false, false)]
    case IntersectionType => [
      With("types", Many(["PhpParser\\Node\\Identifier", "PhpParser\\Node\\Name"]), true, false)]
    case MatchArm => [
      With("conds", One("PhpParser\\Node\\Expr"), true, true),
      WithExpr("body", [])]
    case NullableType => [
      With("type", Many(["PhpParser\\Node\\Identifier", "PhpParser\\Node\\Name"]), false, false)]
    case Param => [
      WithType("type"),
      WithExpr("var", []),
      With("default", One("PhpParser\\Node\\Expr"), false, true),
      WithAttrGroups]
    case UnionType => [
      With("types", Many(["PhpParser\\Node\\Identifier", "PhpParser\\Node\\Name"]), true, false)]
    case _ => []
  }

  /** The classes mapExprInformation registers, in its order. */
  function ExprRegistrations(): seq<Cls>
  {
    [Expr_ArrayDimFetch, Expr_ArrayItem, Expr_Array_, Expr_ArrowFunction, Expr_Assign, Expr_AssignOp] +
    [Expr_AssignRef, Expr_BinaryOp, Expr_BitwiseNot, Expr_BooleanNot, Expr_Cast, Expr_ClassConstFetch] +
    [Expr_Clone_, Expr_Closure, Expr_ClosureUse, Expr_ConstFetch, Expr_Empty_, Expr_ErrorSuppress] +
    [Expr_Eval_, Expr_Exit_, Expr_FuncCall, Expr_Include_, Expr_Instanceof_, Expr_Isset_] +
    [Expr_List_, Expr_Match_, Expr_MethodCall, Expr_New_, Expr_NullsafeMethodCall, Expr_NullsafePropertyFetch] +
    [Expr_PostDec, Expr_PostInc, Expr_PreDec, Expr_PreInc, Expr_Print_, Expr_PropertyFetch] +
    [Expr_ShellExec, Expr_StaticCall, Expr_StaticPropertyFetch, Expr_Ternary, Expr_Throw_, Expr_UnaryMinus] +
    [Expr_UnaryPlus, Expr_Variable, Expr_YieldFrom, Expr_Yield_]
  }

  /** The classes mapNameInformation registers, in its order. */
  function NameRegistrations(): seq<Cls>
  {
    [Name_FullyQualified, Name_Relative]
  }

  /** The classes mapScalarInformation registers, in its order. */
  function ScalarRegistrations(): seq<Cls>
  {
    [Scalar_DNumber, Scalar_Encapsed, Scalar_EncapsedStringPart, Scalar_LNumber, Scalar_MagicConst, Scalar_String_]
  }

  /** The classes mapStmtInformation registers, in its order. */
  function StmtRegistrations(): seq<Cls>
  {
    [Stmt_Break_, Stmt_Case_, Stmt_Catch_, Stmt_ClassConst, Stmt_ClassLike, Stmt_ClassMethod] +
    [Stmt_Class_, Stmt_Const_, Stmt_Continue_, Stmt_DeclareDeclare, Stmt_Declare_, Stmt_Do_] +
    [Stmt_Echo_, Stmt_ElseIf_, Stmt_Else_, Builder_EnumCase, Stmt_Enum_, Stmt_Expression] +
    [Stmt_Finally_, Stmt_For_, Stmt_Foreach_, Stmt_Function_, Stmt_Global_, Stmt_Goto_] +
    [Stmt_GroupUse, Stmt_HaltCompiler, Stmt_If_, Stmt_InlineHTML, Stmt_Interface_, Stmt_Label] +
    [Stmt_Namespace_, Stmt_Nop, Stmt_Property, Stmt_PropertyProperty, Stmt_Return_, Stmt_StaticVar] +
    [Stmt_Static_, Stmt_Switch_, Stmt_Throw_, Stmt_TraitUse, Stmt_TraitUseAdaptation, Stmt_Trait_] +
    [Stmt_TryCatch, Stmt_Unset_, Stmt_UseUse, Stmt_Use_, Stmt_While_, Stmt_TraitUseAdaptation_Alias] +
    [Stmt_TraitUseAdaptation_Precedence]
  }

  /** The classes mapOtherInformation registers, in its order. */
  function OtherRegistrations(): seq<Cls>
  {
    [Arg, Attribute, AttributeGroup, Const_, Identifier, IntersectionType] +
    [MatchArm, Name, NullableType, Param, UnionType, VarLikeIdentifier] +
    [VariadicPlaceholder]
  }

  /** map: the five groups in turn. */
  function Registrations(): seq<Cls>
  {
    ExprRegistrations() + NameRegistrations() + ScalarRegistrations() + StmtRegistrations() + OtherRegistrations()
  }

  // ---------------------------------------------------------------- running a chain

  /**
   * get(c, SubNodeInformation::class) as `include` sees it: the slots of a
   * class registered so far, else the mapping's error (`others` are the
   * classes that hold only information of other types).
   */
  function Included(known: map<Cls, seq<Slot>>, others: set<Cls>, c: Cls): (r: Result<seq<Slot>>)
    ensures r.Ok? <==> c in known
    ensures c !in known && c in others ==> r == Err(TypeNotRegistered(c, SubNodeType))
    ensures c !in known && c !in others ==> r == Err(NodeNotRegistered(c))
  {
    if c in known then Ok(known[c])
    else if c in others then Err(TypeNotRegistered(c, SubNodeType))
    else Err(NodeNotRegistered(c))
  }

  /** One `with` call on the slots. */
  function Single(slots: seq<Slot>, name: string, d: Definition): (seq<Slot>, Outcome)
  {
    var next := WithSlot(slots, name, d);
    if next.Ok? then (next.value, Pass) else (slots, Fail(next.error))
  }

  /**
   * One builder call on the slots of class `self`; an include of `self`
   * copies its current slots.
   */
  function Apply(slots: seq<Slot>, step: Step, known: map<Cls, seq<Slot>>, others: set<Cls>, self: Cls): (seq<Slot>, Outcome)
  {
    match step
    case With(name, classNames, isArray, nullable) => Single(slots, name, Make(classNames, isArray, nullable))
    case WithExpr(subNode, more) => WithEach(slots, [subNode] + more, Make(One("PhpParser\\Node\\Expr"), false, false))
    case WithExprs(subNode, more) => WithEach(slots, [subNode] + more, Make(One("PhpParser\\Node\\Expr"), true, false))
    case WithStmts(subNode, more) => WithEach(slots, [subNode] + more, Make(One("PhpParser\\Node\\Stmt"), false, false))
    case WithParams => Single(slots, "params", Make(One("PhpParser\\Node\\Param"), true, false))
    case WithAttrGroups => Single(slots, "attrGroups", Make(One("PhpParser\\Node\\AttributeGroup"), true, false))
    case WithArgs => Single(slots, "args", Make(Many(["PhpParser\\Node\\Arg", "PhpParser\\Node\\VariadicPlaceholder"]), true, false))
    case WithType(subName) => Single(slots, subName, Make(TypeNames(), false, false))
    case WithReturn => Single(slots, "returnType", Make(TypeNames(), false, false))
    case Include(from) =>
      var found := if from == self then Ok(slots) else Included(known, others, from);
      if found.Err? then (slots, Fail(found.error)) else IncludeEach(slots, found.value)
  }

  /** A chain of builder calls; the first exception ends it. */
  function Steps(slots: seq<Slot>, steps: seq<Step>, known: map<Cls, seq<Slot>>, others: set<Cls>, self: Cls): (seq<Slot>, Outcome)
    decreases |steps|
  {
    if |steps| == 0 then (slots, Pass)
    else
      var (next, r) := Apply(slots, steps[0], known, others, self);
      if r.Fail? then (next, r) else Steps(next, steps[1..], known, others, self)
  }

  /**
   * Registering classes in order: `map` of a fresh information (refused
   * for a class that already has one), then its chain. An exception stops
   * the registration with the slots written so far.
   */
  function RegisterAll(known: map<Cls, seq<Slot>>, others: set<Cls>, order: seq<Cls>, recipe: Cls -> seq<Step>): (map<Cls, seq<Slot>>, Outcome)
    decreases |order|
  {
    if |order| == 0 then (known, Pass)
    else
      var c := order[0];
      if c in known then (known, Fail(AlreadyRegistered(c, SubNodeType)))
      else
        var (slots, r) := Steps([], recipe(c), known, others, c);
        if r.Fail? then (known[c := slots], r) else RegisterAll(known[c := slots], others, order[1..], recipe)
  }

  // ---------------------------------------------------------------- chains step by step

  /** A step that passes is followed by the rest of the chain. */
  lemma StepsThen(slots: seq<Slot>, step: Step, rest: seq<Step>, known: map<Cls, seq<Slot>>, others: set<Cls>, self: Cls)
    requires Apply(slots, step, known, others, self).1.Pass?
    ensures Steps(slots, [step] + rest, known, others, self) ==
      Steps(Apply(slots, step, known, others, self).0, rest, known, others, self)
  {
    assert ([step] + rest)[0] == step;
    assert ([step] + rest)[1..] == rest;
  }

  /** `with` of a new name appends its slot. */
  lemma WithApplies(slots: seq<Slot>, name: string, names: ClassNames, isArray: bool, nullable: bool,
                    known: map<Cls, seq<Slot>>, others: set<Cls>, self: Cls)
    requires !Defined(slots, name)
    ensures Apply(slots, With(name, names, isArray, nullable), known, others, self) ==
      (slots + [Slot(name, Make(names, isArray, nullable))], Pass)
  {
  }

  /** `with` of a name already defined throws and leaves the slots as they were. */
  lemma WithRefuses(slots: seq<Slot>, name: string, names: ClassNames, isArray: bool, nullable: bool,
                    known: map<Cls, seq<Slot>>, others: set<Cls>, self: Cls)
    requires Defined(slots, name)
    ensures Apply(slots, With(name, names, isArray, nullable), known, others, self) ==
      (slots, Fail(DuplicateSlot(name)))
  {
  }

  /** `include` of a registered class whose names are new appends a copy of its slots. */
  lemma IncludeApplies(slots: seq<Slot>, from: Cls, known: map<Cls, seq<Slot>>, others: set<Cls>, self: Cls)
    requires from != self && from in known
    requires DistinctNames(known[from]) && Fresh(slots, known[from])
    ensures Apply(slots, Include(from), known, others, self) == (slots + Copies(known[from]), Pass)
  {
    IncludeCopiesAll(slots, known[from]);
  }

  /**
   * `include` of a class without sub node information adds nothing and
   * throws: TypeNotRegistered when the class holds other information only,
   * NodeNotRegistered otherwise.
   */
  lemma IncludeRefuses(slots: seq<Slot>, from: Cls, known: map<Cls, seq<Slot>>, others: set<Cls>, self: Cls)
    requires from != self && from !in known
    ensures from in others ==> Apply(slots, Include(from), known, others, self) == (slots, Fail(TypeNotRegistered(from, SubNodeType)))
    ensures from !in others ==> Apply(slots, Include(from), known, others, self) == (slots, Fail(NodeNotRegistered(from)))
  {
    var found := Included(known, others, from);
    assert Apply(slots, Include(from), known, others, self) == (slots, Fail(found.error));
  }

  /** A chain of one `with` on no slots defines exactly that slot. */
  lemma OneWith(name: string, names: ClassNames, isArray: bool, nullable: bool,
                known: map<Cls, seq<Slot>>, others: set<Cls>, self: Cls)
    ensures Steps([], [With(name, names, isArray, nullable)], known, others, self) ==
      ([Slot(name, Make(names, isArray, nullable))], Pass)
  {
    var steps := [With(name, names, isArray, nullable)];
    var slot := Slot(name, Make(names, isArray, nullable));
    assert !Defined([], name);
    assert [] + [slot] == [slot];
    assert WithSlot([], name, slot.definition) == Ok([slot]);
    assert Apply([], steps[0], known, others, self) == ([slot], Pass);
    assert steps[1..] == [];
  }

  /** A class registered with one `with` call holds exactly that slot. */
  lemma SingleSlotRecipe(c: Cls, name: string, names: ClassNames, isArray: bool, nullable: bool,
                         known: map<Cls, seq<Slot>>, others: set<Cls>)
    requires Recipe(c) == [With(name, names, isArray, nullable)]
    ensures Steps([], Recipe(c), known, others, c) == ([Slot(name, Make(names, isArray, nullable))], Pass)
  {
    OneWith(name, names, isArray, nullable, known, others, c);
  }

  // ---------------------------------------------------------------- the slots stay normal

  /** Every class registered so far holds normal slots. */
  predicate AllNormal(known: map<Cls, seq<Slot>>)
  {
    forall c :: c in known ==> Normal(known[c])
  }

  /** Every builder call keeps the slots normal, whether it passes or throws. */
  lemma ApplyKeepsNormal(slots: seq<Slot>, step: Step, known: map<Cls, seq<Slot>>, others: set<Cls>, self: Cls)
    requires Normal(slots) && AllNormal(known)
    ensures Normal(Apply(slots, step, known, others, self).0)
  {
    match step
    case With(name, classNames, isArray, nullable) => WithKeepsNormal(slots, name, Make(classNames, isArray, nullable));
    case WithExpr(subNode, more) => WithEachKeepsNormal(slots, [subNode] + more, Make(One("PhpParser\\Node\\Expr"), false, false));
    case WithExprs(subNode, more) => WithEachKeepsNormal(slots, [subNode] + more, Make(One("PhpParser\\Node\\Expr"), true, false));
    case WithStmts(subNode, more) => WithEachKeepsNormal(slots, [subNode] + more, Make(One("PhpParser\\Node\\Stmt"), false, false));
    case WithParams => WithKeepsNormal(slots, "params", Make(One("PhpParser\\Node\\Param"), true, false));
    case WithAttrGroups => WithKeepsNormal(slots, "attrGroups", Make(One("PhpParser\\Node\\AttributeGroup"), true, false));
    case WithArgs => WithKeepsNormal(slots, "args", Make(Many(["PhpParser\\Node\\Arg", "PhpParser\\Node\\VariadicPlaceholder"]), true, false));
    case WithType(subName) => WithKeepsNormal(slots, subName, Make(TypeNames(), false, false));
    case WithReturn => WithKeepsNormal(slots, "returnType", Make(TypeNames(), false, false));
    case Include(from) =>
      var found := if from == self then Ok(slots) else Included(known, others, from);
      if found.Ok? {
        IncludeEachKeepsNormal(slots, found.value);
      }
  }

  /** A chain keeps the slots normal, whether it passes or throws. */
  lemma {:induction false} StepsKeepNormal(slots: seq<Slot>, steps: seq<Step>, known: map<Cls, seq<Slot>>, others: set<Cls>, self: Cls)
    requires Normal(slots) && AllNormal(known)
    ensures Normal(Steps(slots, steps, known, others, self).0)
    decreases |steps|
  {
    if |steps| > 0 {
      ApplyKeepsNormal(slots, steps[0], known, others, self);
      var next := Apply(slots, steps[0], known, others, self);
      if next.1.Pass? {
        StepsKeepNormal(next.0, steps[1..], known, others, self);
      }
    }
  }

  /**
   * Registration keeps every registered class's slots normal: distinct
   * names and duplicate-free class names, as the counters rely on.
   */
  lemma {:induction false} RegisterAllKeepsNormal(known: map<Cls, seq<Slot>>, others: set<Cls>, order: seq<Cls>, recipe: Cls -> seq<Step>)
    requires AllNormal(known)
    ensures AllNormal(RegisterAll(known, others, order, recipe).0)
    decreases |order|
  {
    if |order| > 0 && order[0] !in known {
      var c := order[0];
      StepsKeepNormal([], recipe(c), known, others, c);
      var slots := Steps([], recipe(c), known, others, c).0;
      assert AllNormal(known[c := slots]);
      if Steps([], recipe(c), known, others, c).1.Pass? {
        RegisterAllKeepsNormal(known[c := slots], others, order[1..], recipe);
      }
    }
  }

  /** The registrar's own table, registered on a mapping without sub node information, is normal. */
  lemma TableIsNormal(others: set<Cls>)
    ensures AllNormal(RegisterAll(map[], others, Registrations(), Recipe).0)
  {
    RegisterAllKeepsNormal(map[], others, Registrations(), Recipe);
  }

  // ---------------------------------------------------------------- the table's slots

  /** Array_ holds `items`: an array whose elements are ArrayItem or null. */
  lemma ArrayRegistered(known: map<Cls, seq<Slot>>, others: set<Cls>)
    ensures Steps([], Recipe(Expr_Array_), known, others, Expr_Array_) ==
      ([Slot("items", Make(One("PhpParser\\Node\\Expr\\ArrayItem"), true, true))], Pass)
  {
    SingleSlotRecipe(Expr_Array_, "items", One("PhpParser\\Node\\Expr\\ArrayItem"), true, true, known, others);
  }

  /** List_ holds the same `items` slot as Array_. */
  lemma ListRegistered(known: map<Cls, seq<Slot>>, others: set<Cls>)
    ensures Steps([], Recipe(Expr_List_), known, others, Expr_List_) ==
      ([Slot("items", Make(One("PhpParser\\Node\\Expr\\ArrayItem"), true, true))], Pass)
  {
    SingleSlotRecipe(Expr_List_, "items", One("PhpParser\\Node\\Expr\\ArrayItem"), true, true, known, others);
  }

  /** The `items` slot accepts ArrayItem and null and nothing else. */
  lemma ItemsAccept(x: string)
    ensures Accepts(Make(One("PhpParser\\Node\\Expr\\ArrayItem"), true, true), x) <==>
      x == "PhpParser\\Node\\Expr\\ArrayItem" || x == NULL
  {
    AcceptsGiven(One("PhpParser\\Node\\Expr\\ArrayItem"), true, true, x);
  }

  /** Variable holds `name`: a single string or Expr, never null. */
  lemma VariableRegistered(known: map<Cls, seq<Slot>>, others: set<Cls>, x: string)
    ensures Steps([], Recipe(Expr_Variable), known, others, Expr_Variable) ==
      ([Slot("name", Make(Many([STRING, "PhpParser\\Node\\Expr"]), false, false))], Pass)
    ensures Accepts(Make(Many([STRING, "PhpParser\\Node\\Expr"]), false, false), x) <==>
      x == STRING || x == "PhpParser\\Node\\Expr"
  {
    SingleSlotRecipe(Expr_Variable, "name", Many([STRING, "PhpParser\\Node\\Expr"]), false, false, known, others);
    AcceptsGiven(Many([STRING, "PhpParser\\Node\\Expr"]), false, false, x);
  }

  /** withStmts/withExpr/withExprs of one new name appends its slot. */
  lemma WithEachOne(slots: seq<Slot>, name: string, d: Definition)
    requires !Defined(slots, name)
    ensures WithEach(slots, [name], d) == (slots + [Slot(name, d)], Pass)
  {
    assert [name][1..] == [];
  }

  /** The chain ends after its last step. */
  lemma StepsDone(slots: seq<Slot>, step: Step, known: map<Cls, seq<Slot>>, others: set<Cls>, self: Cls)
    ensures Steps(slots, [step], known, others, self) == Apply(slots, step, known, others, self)
  {
    assert [step][1..] == [];
  }

  /** ClassLike's slots: `name` (Identifier or null), `stmts` (Stmt) and `attrGroups` (array of AttributeGroup). */
  function ClassLikeSlots(): seq<Slot>
  {
    [Slot("name", Make(One("PhpParser\\Node\\Identifier"), false, true)),
     Slot("stmts", Make(One("PhpParser\\Node\\Stmt"), false, false)),
     Slot("attrGroups", Make(One("PhpParser\\Node\\AttributeGroup"), true, false))]
  }

  /** A chain of three steps, each passing, leaves the three slots they add. */
  lemma ThreeSteps(a: Step, b: Step, d: Step, x: Slot, y: Slot, z: Slot,
                   known: map<Cls, seq<Slot>>, others: set<Cls>, self: Cls)
    requires Apply([], a, known, others, self) == ([] + [x], Pass)
    requires Apply([x], b, known, others, self) == ([x] + [y], Pass)
    requires Apply([x, y], d, known, others, self) == ([x, y] + [z], Pass)
    ensures Steps([], [a, b, d], known, others, self) == ([x, y, z], Pass)
  {
    assert [] + [x] == [x];
    assert [x] + [y] == [x, y];
    assert [x, y] + [z] == [x, y, z];
    assert [a, b, d] == [a] + [b, d];
    StepsThen([], a, [b, d], known, others, self);
    assert [b, d] == [b] + [d];
    StepsThen([x], b, [d], known, others, self);
    StepsDone([x, y], d, known, others, self);
  }

  /** The chain ClassLike is registered with. */
  lemma ClassLikeRecipe()
    ensures Recipe(Stmt_ClassLike) ==
      [With("name", One("PhpParser\\Node\\Identifier"), false, true), WithStmts("stmts", []), WithAttrGroups]
  {
  }

  /** Stmt\ClassLike's chain yields its three slots, whose names are distinct. */
  lemma ClassLikeRegistered(known: map<Cls, seq<Slot>>, others: set<Cls>, steps: seq<Step>)
    requires steps == Recipe(Stmt_ClassLike)
    ensures Steps([], steps, known, others, Stmt_ClassLike) == (ClassLikeSlots(), Pass)
    ensures DistinctNames(ClassLikeSlots())
  {
    var c := Stmt_ClassLike;
    var s := ClassLikeSlots();
    var name := With("name", One("PhpParser\\Node\\Identifier"), false, true);
    var stmts := WithStmts("stmts", []);
    ClassLikeRecipe();
    WithApplies([], "name", One("PhpParser\\Node\\Identifier"), false, true, known, others, c);
    assert !Defined([s[0]], "stmts");
    WithEachOne([s[0]], "stmts", s[1].definition);
    assert !Defined([s[0], s[1]], "attrGroups");
    ThreeSteps(name, stmts, WithAttrGroups, s[0], s[1], s[2], known, others, c);
  }

  /** The copies `include` makes have the names of the slots they copy. */
  lemma CopiesDefined(from: seq<Slot>, name: string)
    ensures Defined(Copies(from), name) <==> Defined(from, name)
  {
    forall i | 0 <= i < |from|
      ensures Copies(from)[i].name == from[i].name
    {
      CopiesAt(from, i);
    }
  }

  /** A copy accepts exactly what the slot it copies accepts. */
  lemma CopyAccepts(names: ClassNames, isArray: bool, nullable: bool, x: string)
    ensures Accepts(Copied(Make(names, isArray, nullable)), x) <==> Accepts(Make(names, isArray, nullable), x)
  {
    CopyKeepsNamesAndArray(names, isArray, nullable);
  }

  /**
   * A chain that includes a registered class and then adds two slots
   * leaves the copies followed by the two slots.
   */
  lemma IncludeThenTwo(self: Cls, from: Cls, a: Step, b: Step, x: Slot, y: Slot,
                       known: map<Cls, seq<Slot>>, others: set<Cls>)
    requires from != self && from in known && DistinctNames(known[from])
    requires Apply(Copies(known[from]), a, known, others, self) == (Copies(known[from]) + [x], Pass)
    requires Apply(Copies(known[from]) + [x], b, known, others, self) == (Copies(known[from]) + [x] + [y], Pass)
    ensures Steps([], [Include(from), a, b], known, others, self) == (Copies(known[from]) + [x, y], Pass)
  {
    var copies := Copies(known[from]);
    IncludeApplies([], from, known, others, self);
    assert [] + copies == copies;
    assert [Include(from), a, b] == [Include(from)] + [a, b];
    StepsThen([], Include(from), [a, b], known, others, self);
    TwoSteps(copies, a, b, known, others, self);
    assert copies + [x] + [y] == copies + [x, y];
  }

  /** Two steps run one after the other when the first one passes. */
  lemma TwoSteps(slots: seq<Slot>, a: Step, b: Step, known: map<Cls, seq<Slot>>, others: set<Cls>, self: Cls)
    requires Apply(slots, a, known, others, self).1.Pass?
    ensures Steps(slots, [a, b], known, others, self) ==
      Apply(Apply(slots, a, known, others, self).0, b, known, others, self)
  {
    assert [a, b] == [a] + [b];
    StepsThen(slots, a, [b], known, others, self);
    StepsDone(Apply(slots, a, known, others, self).0, b, known, others, self);
  }

  /** The chain Class_ is registered with. */
  lemma ClassRecipe()
    ensures Recipe(Stmt_Class_) ==
      [Include(Stmt_ClassLike),
       With("extends", One("PhpParser\\Node\\Name"), false, true),
       With("implements", One("PhpParser\\Node\\Name"), true, false)]
  {
  }

  /**
   * Once ClassLike is registered, Class_ holds a copy of ClassLike's slots
   * followed by `extends` (Name or null) and `implements` (array of Name),
   * as long as ClassLike defines neither of those names.
   */
  lemma ClassRegistered(known: map<Cls, seq<Slot>>, others: set<Cls>, steps: seq<Step>)
    requires steps == Recipe(Stmt_Class_)
    requires Stmt_ClassLike in known && DistinctNames(known[Stmt_ClassLike])
    requires !Defined(known[Stmt_ClassLike], "extends") && !Defined(known[Stmt_ClassLike], "implements")
    ensures Steps([], steps, known, others, Stmt_Class_) ==
      (Copies(known[Stmt_ClassLike]) + [Slot("extends", Make(One("PhpParser\\Node\\Name"), false, true)),
                                        Slot("implements", Make(One("PhpParser\\Node\\Name"), true, false))], Pass)
  {
    var extendsStep := With("extends", One("PhpParser\\Node\\Name"), false, true);
    var implementsStep := With("implements", One("PhpParser\\Node\\Name"), true, false);
    var x := Slot("extends", Make(One("PhpParser\\Node\\Name"), false, true));
    var y := Slot("implements", Make(One("PhpParser\\Node\\Name"), true, false));
    var copies := Copies(known[Stmt_ClassLike]);
    ClassRecipe();
    CopiesDefined(known[Stmt_ClassLike], "extends");
    WithApplies(copies, "extends", One("PhpParser\\Node\\Name"), false, true, known, others, Stmt_Class_);
    CopiesDefined(known[Stmt_ClassLike], "implements");
    assert !Defined(copies + [x], "implements");
    WithApplies(copies + [x], "implements", One("PhpParser\\Node\\Name"), true, false, known, others, Stmt_Class_);
    IncludeThenTwo(Stmt_Class_, Stmt_ClassLike, extendsStep, implementsStep, x, y, known, others);
  }

  /** ClassLike's slots leave `extends` and `implements` free for Class_. */
  lemma ClassLikeLeavesClassNames()
    ensures DistinctNames(ClassLikeSlots())
    ensures !Defined(ClassLikeSlots(), "extends") && !Defined(ClassLikeSlots(), "implements")
  {
  }

  /** A chain that only includes a registered class leaves a copy of its slots. */
  lemma IncludeOnly(self: Cls, from: Cls, known: map<Cls, seq<Slot>>, others: set<Cls>)
    requires from != self && from in known && DistinctNames(known[from])
    ensures Steps([], [Include(from)], known, others, self) == (Copies(known[from]), Pass)
  {
    IncludeApplies([], from, known, others, self);
    assert [] + Copies(known[from]) == Copies(known[from]);
    StepsDone([], Include(from), known, others, self);
  }

  /** The chain Trait_ is registered with. */
  lemma TraitRecipe()
    ensures Recipe(Stmt_Trait_) == [Include(Stmt_ClassLike)]
  {
  }

  /**
   * Trait_ holds exactly a copy of ClassLike's slots once ClassLike is
   * registered; before that, its chain throws the mapping's error and
   * leaves it without slots.
   */
  lemma TraitRegistered(known: map<Cls, seq<Slot>>, others: set<Cls>, steps: seq<Step>)
    requires steps == Recipe(Stmt_Trait_)
    ensures Stmt_ClassLike in known && DistinctNames(known[Stmt_ClassLike]) ==>
      Steps([], steps, known, others, Stmt_Trait_) == (Copies(known[Stmt_ClassLike]), Pass)
    ensures Stmt_ClassLike !in known ==>
      Steps([], steps, known, others, Stmt_Trait_) == ([], Fail(Included(known, others, Stmt_ClassLike).error))
  {
    TraitRecipe();
    if Stmt_ClassLike in known && DistinctNames(known[Stmt_ClassLike]) {
      IncludeOnly(Stmt_Trait_, Stmt_ClassLike, known, others);
    }
    StepsDone([], Include(Stmt_ClassLike), known, others, Stmt_Trait_);
  }

  /** The chain TraitUseAdaptation is registered with. */
  lemma AdaptationRecipe()
    ensures Recipe(Stmt_TraitUseAdaptation) ==
      [With("trait", One("PhpParser\\Node\\Name"), false, true), With("method", One("PhpParser\\Node\\Identifier"), false, false)]
  {
  }

  /** TraitUseAdaptation's slots: `trait` (Name or null) and `method` (Identifier). */
  function AdaptationSlots(): seq<Slot>
  {
    [Slot("trait", Make(One("PhpParser\\Node\\Name"), false, true)),
     Slot("method", Make(One("PhpParser\\Node\\Identifier"), false, false))]
  }

  lemma AdaptationRegistered(known: map<Cls, seq<Slot>>, others: set<Cls>, steps: seq<Step>)
    requires steps == Recipe(Stmt_TraitUseAdaptation)
    ensures Steps([], steps, known, others, Stmt_TraitUseAdaptation) == (AdaptationSlots(), Pass)
    ensures DistinctNames(AdaptationSlots())
  {
    var c := Stmt_TraitUseAdaptation;
    var s := AdaptationSlots();
    var traitStep := With("trait", One("PhpParser\\Node\\Name"), false, true);
    var methodStep := With("method", One("PhpParser\\Node\\Identifier"), false, false);
    AdaptationRecipe();
    WithApplies([], "trait", One("PhpParser\\Node\\Name"), false, true, known, others, c);
    assert [] + [s[0]] == [s[0]];
    assert steps == [traitStep] + [methodStep];
    StepsThen([], traitStep, [methodStep], known, others, c);
    assert !Defined([s[0]], "method");
    WithApplies([s[0]], "method", One("PhpParser\\Node\\Identifier"), false, false, known, others, c);
    assert [s[0]] + [s[1]] == s;
    StepsDone([s[0]], methodStep, known, others, c);
  }

  /** The chain Alias is registered with. */
  lemma AliasRecipe()
    ensures Recipe(Stmt_TraitUseAdaptation_Alias) ==
      [Include(Stmt_TraitUseAdaptation),
       With("newModifier", One(INT), false, true),
       With("newName", One("PhpParser\\Node\\Identifier"), false, true)]
  {
  }

  /**
   * Once TraitUseAdaptation is registered, Alias holds a copy of its slots
   * followed by `newModifier` (int or null) and `newName` (Identifier or null).
   */
  lemma AliasRegistered(known: map<Cls, seq<Slot>>, others: set<Cls>, steps: seq<Step>)
    requires steps == Recipe(Stmt_TraitUseAdaptation_Alias)
    requires Stmt_TraitUseAdaptation in known && DistinctNames(known[Stmt_TraitUseAdaptation])
    requires !Defined(known[Stmt_TraitUseAdaptation], "newModifier") && !Defined(known[Stmt_TraitUseAdaptation], "newName")
    ensures Steps([], steps, known, others, Stmt_TraitUseAdaptation_Alias) ==
      (Copies(known[Stmt_TraitUseAdaptation]) + [Slot("newModifier", Make(One(INT), false, true)),
                                                 Slot("newName", Make(One("PhpParser\\Node\\Identifier"), false, true))], Pass)
  {
    var c := Stmt_TraitUseAdaptation_Alias;
    var from := Stmt_TraitUseAdaptation;
    var modifierStep := With("newModifier", One(INT), false, true);
    var nameStep := With("newName", One("PhpParser\\Node\\Identifier"), false, true);
    var x := Slot("newModifier", Make(One(INT), false, true));
    var y := Slot("newName", Make(One("PhpParser\\Node\\Identifier"), false, true));
    var copies := Copies(known[from]);
    AliasRecipe();
    CopiesDefined(known[from], "newModifier");
    WithApplies(copies, "newModifier", One(INT), false, true, known, others, c);
    CopiesDefined(known[from], "newName");
    assert !Defined(copies + [x], "newName");
    WithApplies(copies + [x], "newName", One("PhpParser\\Node\\Identifier"), false, true, known, others, c);
    IncludeThenTwo(c, from, modifierStep, nameStep, x, y, known, others);
  }

  /** The chain Precedence is registered with. */
  lemma PrecedenceRecipe()
    ensures Recipe(Stmt_TraitUseAdaptation_Precedence) ==
      [Include(Stmt_TraitUseAdaptation), With("insteadof", One("PhpParser\\Node\\Name"), true, false)]
  {
  }

  /**
   * Once TraitUseAdaptation is registered, Precedence holds a copy of its
   * slots followed by `insteadof` (array of Name).
   */
  lemma PrecedenceRegistered(known: map<Cls, seq<Slot>>, others: set<Cls>, steps: seq<Step>)
    requires steps == Recipe(Stmt_TraitUseAdaptation_Precedence)
    requires Stmt_TraitUseAdaptation in known && DistinctNames(known[Stmt_TraitUseAdaptation])
    requires !Defined(known[Stmt_TraitUseAdaptation], "insteadof")
    ensures Steps([], steps, known, others, Stmt_TraitUseAdaptation_Precedence) ==
      (Copies(known[Stmt_TraitUseAdaptation]) + [Slot("insteadof", Make(One("PhpParser\\Node\\Name"), true, false))], Pass)
  {
    var c := Stmt_TraitUseAdaptation_Precedence;
    var from := Stmt_TraitUseAdaptation;
    var insteadStep := With("insteadof", One("PhpParser\\Node\\Name"), true, false);
    var copies := Copies(known[from]);
    PrecedenceRecipe();
    IncludeApplies([], from, known, others, c);
    assert [] + copies == copies;
    assert steps == [Include(from)] + [insteadStep];
    StepsThen([], Include(from), [insteadStep], known, others, c);
    CopiesDefined(known[from], "insteadof");
    WithApplies(copies, "insteadof", One("PhpParser\\Node\\Name"), true, false, known, others, c);
    StepsDone(copies, insteadStep, known, others, c);
  }

  /** TraitUseAdaptation's slots leave the names Alias and Precedence add free. */
  lemma AdaptationLeavesNames()
    ensures !Defined(AdaptationSlots(), "newModifier") && !Defined(AdaptationSlots(), "newName")
    ensures !Defined(AdaptationSlots(), "insteadof")
  {
  }

  // ---------------------------------------------------------------- the registration as a whole

  /** The classes an order names. */
  function Named(order: seq<Cls>): set<Cls>
  {
    set i | 0 <= i < |order| :: order[i]
  }

  /**
   * Registration never overwrites: classes registered before keep their
   * slots, and afterwards exactly the classes of the order have been
   * added when it passes (some prefix of them when it stops).
   */
  lemma {:induction false} RegisterAllKeeps(known: map<Cls, seq<Slot>>, others: set<Cls>, order: seq<Cls>, recipe: Cls -> seq<Step>)
    ensures forall c :: c in known ==> c in RegisterAll(known, others, order, recipe).0 && RegisterAll(known, others, order, recipe).0[c] == known[c]
    ensures RegisterAll(known, others, order, recipe).0.Keys <= known.Keys + Named(order)
    ensures RegisterAll(known, others, order, recipe).1.Pass? ==> RegisterAll(known, others, order, recipe).0.Keys == known.Keys + Named(order)
    decreases |order|
  {
    if |order| > 0 && order[0] !in known {
      var c := order[0];
      var (slots, r) := Steps([], recipe(c), known, others, c);
      if r.Pass? {
        RegisterAllKeeps(known[c := slots], others, order[1..], recipe);
        assert Named(order) == {c} + Named(order[1..]) by {
          forall x | x in Named(order) ensures x in {c} + Named(order[1..]) {
            var i :| 0 <= i < |order| && order[i] == x;
            if i > 0 { assert order[1..][i - 1] == x; }
          }
        }
      }
    }
  }

  /** Registering `a + b` is registering `a` and then, if that passed, `b`. */
  lemma {:induction false} RegisterAllSplit(known: map<Cls, seq<Slot>>, others: set<Cls>, a: seq<Cls>, b: seq<Cls>, recipe: Cls -> seq<Step>)
    ensures RegisterAll(known, others, a + b, recipe) ==
      (var first := RegisterAll(known, others, a, recipe);
       if first.1.Fail? then first else RegisterAll(first.0, others, b, recipe))
    decreases |a|
  {
    if |a| > 0 {
      assert (a + b)[0] == a[0];
      assert (a + b)[1..] == a[1..] + b;
      var c := a[0];
      if c !in known {
        var (slots, r) := Steps([], recipe(c), known, others, c);
        RegisterAllSplit(known[c := slots], others, a[1..], b, recipe);
      }
    } else {
      assert a + b == b;
    }
  }

  /** A class that appears twice stops the registration at its second `map`, if not before. */
  lemma {:induction false} RegisterAllRefusesRepeat(known: map<Cls, seq<Slot>>, others: set<Cls>, order: seq<Cls>, recipe: Cls -> seq<Step>, i: int, j: int)
    requires 0 <= i < j < |order| && order[i] == order[j]
    ensures RegisterAll(known, others, order, recipe).1.Fail?
    decreases |order|
  {
    var c := order[0];
    if c !in known {
      var (slots, r) := Steps([], recipe(c), known, others, c);
      if r.Pass? {
        if i == 0 {
          RegisteredStaysRefused(known[c := slots], others, order[1..], recipe, j - 1);
        } else {
          RegisterAllRefusesRepeat(known[c := slots], others, order[1..], recipe, i - 1, j - 1);
        }
      }
    }
  }

  /** A class already registered stops the registration when its turn comes, if not before. */
  lemma {:induction false} RegisteredStaysRefused(known: map<Cls, seq<Slot>>, others: set<Cls>, order: seq<Cls>, recipe: Cls -> seq<Step>, j: int)
    requires 0 <= j < |order| && order[j] in known
    ensures RegisterAll(known, others, order, recipe).1.Fail?
    decreases |order|
  {
    var c := order[0];
    if c !in known {
      var (slots, r) := Steps([], recipe(c), known, others, c);
      if r.Pass? {
        RegisteredStaysRefused(known[c := slots], others, order[1..], recipe, j - 1);
      }
    }
  }

  // ---------------------------------------------------------------- the order of the table

  /** The sizes of the five groups. */
  lemma GroupSizes()
    ensures |ExprRegistrations()| == 46 && |NameRegistrations()| == 2 && |ScalarRegistrations()| == 6
    ensures |StmtRegistrations()| == 49 && |OtherRegistrations()| == 13
  {
  }

  // ---------------------------------------------------------------- every class once

  /** No class listed twice. */
  predicate NoRepeats(s: seq<Cls>)
  {
    forall i, j :: 0 <= i < j < |s| ==> s[i] != s[j]
  }

  /** Appending a list without repeats none of whose classes came before keeps the whole free of repeats. */
  lemma JoinNoRepeats(a: seq<Cls>, b: seq<Cls>)
    requires NoRepeats(a) && NoRepeats(b)
    requires forall x :: x in b ==> x !in a
    ensures NoRepeats(a + b)
  {
    forall i, j | 0 <= i < j < |a + b|
      ensures (a + b)[i] != (a + b)[j]
    {
      if i < |a| <= j {
        assert (a + b)[j] == b[j - |a|] && b[j - |a|] in b;
      }
    }
  }

  /** Row 1 of the expr group repeats no class of the rows before it. */
  lemma ExprRow1Fresh()
    ensures forall x :: x in [Expr_AssignRef, Expr_BinaryOp, Expr_BitwiseNot, Expr_BooleanNot, Expr_Cast, Expr_ClassConstFetch] ==> x !in [Expr_ArrayDimFetch, Expr_ArrayItem, Expr_Array_, Expr_ArrowFunction, Expr_Assign, Expr_AssignOp]
  {
  }

  /** Row 2 of the expr group repeats no class of the rows before it. */
  lemma ExprRow2Fresh()
    ensures forall x :: x in [Expr_Clone_, Expr_Closure, Expr_ClosureUse, Expr_ConstFetch, Expr_Empty_, Expr_ErrorSuppress] ==> x !in [Expr_ArrayDimFetch, Expr_ArrayItem, Expr_Array_, Expr_ArrowFunction, Expr_Assign, Expr_AssignOp] + [Expr_AssignRef, Expr_BinaryOp, Expr_BitwiseNot, Expr_BooleanNot, Expr_Cast, Expr_ClassConstFetch]
  {
  }

  /** Row 3 of the expr group repeats no class of the rows before it. */
  lemma ExprRow3Fresh()
    ensures forall x :: x in [Expr_Eval_, Expr_Exit_, Expr_FuncCall, Expr_Include_, Expr_Instanceof_, Expr_Isset_] ==> x !in [Expr_ArrayDimFetch, Expr_ArrayItem, Expr_Array_, Expr_ArrowFunction, Expr_Assign, Expr_AssignOp] + [Expr_AssignRef, Expr_BinaryOp, Expr_BitwiseNot, Expr_BooleanNot, Expr_Cast, Expr_ClassConstFetch] + [Expr_Clone_, Expr_Closure, Expr_ClosureUse, Expr_ConstFetch, Expr_Empty_, Expr_ErrorSuppress]
  {
  }

  /** Row 4 of the expr group repeats no class of the rows before it. */
  lemma ExprRow4Fresh()
    ensures forall x :: x in [Expr_List_, Expr_Match_, Expr_MethodCall, Expr_New_, Expr_NullsafeMethodCall, Expr_NullsafePropertyFetch] ==> x !in [Expr_ArrayDimFetch, Expr_ArrayItem, Expr_Array_, Expr_ArrowFunction, Expr_Assign, Expr_AssignOp] + [Expr_AssignRef, Expr_BinaryOp, Expr_BitwiseNot, Expr_BooleanNot, Expr_Cast, Expr_ClassConstFetch] + [Expr_Clone_, Expr_Closure, Expr_ClosureUse, Expr_ConstFetch, Expr_Empty_, Expr_ErrorSuppress] + [Expr_Eval_, Expr_Exit_, Expr_FuncCall, Expr_Include_, Expr_Instanceof_, Expr_Isset_]
  {
  }

  /** Row 5 of the expr group repeats no class of the rows before it. */
  lemma ExprRow5Fresh()
    ensures forall x :: x in [Expr_PostDec, Expr_PostInc, Expr_PreDec, Expr_PreInc, Expr_Print_, Expr_PropertyFetch] ==> x !in [Expr_ArrayDimFetch, Expr_ArrayItem, Expr_Array_, Expr_ArrowFunction, Expr_Assign, Expr_AssignOp] + [Expr_AssignRef, Expr_BinaryOp, Expr_BitwiseNot, Expr_BooleanNot, Expr_Cast, Expr_ClassConstFetch] + [Expr_Clone_, Expr_Closure, Expr_ClosureUse, Expr_ConstFetch, Expr_Empty_, Expr_ErrorSuppress] + [Expr_Eval_, Expr_Exit_, Expr_FuncCall, Expr_Include_, Expr_Instanceof_, Expr_Isset_] + [Expr_List_, Expr_Match_, Expr_MethodCall, Expr_New_, Expr_NullsafeMethodCall, Expr_NullsafePropertyFetch]
  {
  }

  /** Row 6 of the expr group repeats no class of the rows before it. */
  lemma ExprRow6Fresh()
    ensures forall x :: x in [Expr_ShellExec, Expr_StaticCall, Expr_StaticPropertyFetch, Expr_Ternary, Expr_Throw_, Expr_UnaryMinus] ==> x !in [Expr_ArrayDimFetch, Expr_ArrayItem, Expr_Array_, Expr_ArrowFunction, Expr_Assign, Expr_AssignOp] + [Expr_AssignRef, Expr_BinaryOp, Expr_BitwiseNot, Expr_BooleanNot, Expr_Cast, Expr_ClassConstFetch] + [Expr_Clone_, Expr_Closure, Expr_ClosureUse, Expr_ConstFetch, Expr_Empty_, Expr_ErrorSuppress] + [Expr_Eval_, Expr_Exit_, Expr_FuncCall, Expr_Include_, Expr_Instanceof_, Expr_Isset_] + [Expr_List_, Expr_Match_, Expr_MethodCall, Expr_New_, Expr_NullsafeMethodCall, Expr_NullsafePropertyFetch] + [Expr_PostDec, Expr_PostInc, Expr_PreDec, Expr_PreInc, Expr_Print_, Expr_PropertyFetch]
  {
  }

  /** Row 7 of the expr group repeats no class of the rows before it. */
  lemma ExprRow7Fresh()
    ensures forall x :: x in [Expr_UnaryPlus, Expr_Variable, Expr_YieldFrom, Expr_Yield_] ==> x !in [Expr_ArrayDimFetch, Expr_ArrayItem, Expr_Array_, Expr_ArrowFunction, Expr_Assign, Expr_AssignOp] + [Expr_AssignRef, Expr_BinaryOp, Expr_BitwiseNot, Expr_BooleanNot, Expr_Cast, Expr_ClassConstFetch] + [Expr_Clone_, Expr_Closure, Expr_ClosureUse, Expr_ConstFetch, Expr_Empty_, Expr_ErrorSuppress] + [Expr_Eval_, Expr_Exit_, Expr_FuncCall, Expr_Include_, Expr_Instanceof_, Expr_Isset_] + [Expr_List_, Expr_Match_, Expr_MethodCall, Expr_New_, Expr_NullsafeMethodCall, Expr_NullsafePropertyFetch] + [Expr_PostDec, Expr_PostInc, Expr_PreDec, Expr_PreInc, Expr_Print_, Expr_PropertyFetch] + [Expr_ShellExec, Expr_StaticCall, Expr_StaticPropertyFetch, Expr_Ternary, Expr_Throw_, Expr_UnaryMinus]
  {
  }

  /** The first 2 rows of the expr group list no class twice. */
  lemma ExprRows1()
    ensures NoRepeats([Expr_ArrayDimFetch, Expr_ArrayItem, Expr_Array_, Expr_ArrowFunction, Expr_Assign, Expr_AssignOp] + [Expr_AssignRef, Expr_BinaryOp, Expr_BitwiseNot, Expr_BooleanNot, Expr_Cast, Expr_ClassConstFetch])
  {
    ExprRow1Fresh();
    JoinNoRepeats([Expr_ArrayDimFetch, Expr_ArrayItem, Expr_Array_, Expr_ArrowFunction, Expr_Assign, Expr_AssignOp], [Expr_AssignRef, Expr_BinaryOp, Expr_BitwiseNot, Expr_BooleanNot, Expr_Cast, Expr_ClassConstFetch]);
  }

  /** The first 3 rows of the expr group list no class twice. */
  lemma ExprRows2()
    ensures NoRepeats([Expr_ArrayDimFetch, Expr_ArrayItem, Expr_Array_, Expr_ArrowFunction, Expr_Assign, Expr_AssignOp] + [Expr_AssignRef, Expr_BinaryOp, Expr_BitwiseNot, Expr_BooleanNot, Expr_Cast, Expr_ClassConstFetch] + [Expr_Clone_, Expr_Closure, Expr_ClosureUse, Expr_ConstFetch, Expr_Empty_, Expr_ErrorSuppress])
  {
    ExprRows1();
    ExprRow2Fresh();
    JoinNoRepeats([Expr_ArrayDimFetch, Expr_ArrayItem, Expr_Array_, Expr_ArrowFunction, Expr_Assign, Expr_AssignOp] + [Expr_AssignRef, Expr_BinaryOp, Expr_BitwiseNot, Expr_BooleanNot, Expr_Cast, Expr_ClassConstFetch], [Expr_Clone_, Expr_Closure, Expr_ClosureUse, Expr_ConstFetch, Expr_Empty_, Expr_ErrorSuppress]);
  }

  /** The first 4 rows of the expr group list no class twice. */
  lemma ExprRows3()
    ensures NoRepeats([Expr_ArrayDimFetch, Expr_ArrayItem, Expr_Array_, Expr_ArrowFunction, Expr_Assign, Expr_AssignOp] + [Expr_AssignRef, Expr_BinaryOp, Expr_BitwiseNot, Expr_BooleanNot, Expr_Cast, Expr_ClassConstFetch] + [Expr_Clone_, Expr_Closure, Expr_ClosureUse, Expr_ConstFetch, Expr_Empty_, Expr_ErrorSuppress] + [Expr_Eval_, Expr_Exit_, Expr_FuncCall, Expr_Include_, Expr_Instanceof_, Expr_Isset_])
  {
    ExprRows2();
    ExprRow3Fresh();
    JoinNoRepeats([Expr_ArrayDimFetch, Expr_ArrayItem, Expr_Array_, Expr_ArrowFunction, Expr_Assign, Expr_AssignOp] + [Expr_AssignRef, Expr_BinaryOp, Expr_BitwiseNot, Expr_BooleanNot, Expr_Cast, Expr_ClassConstFetch] + [Expr_Clone_, Expr_Closure, Expr_ClosureUse, Expr_ConstFetch, Expr_Empty_, Expr_ErrorSuppress], [Expr_Eval_, Expr_Exit_, Expr_FuncCall, Expr_Include_, Expr_Instanceof_, Expr_Isset_]);
  }

  /** The first 5 rows of the expr group list no class twice. */
  lemma ExprRows4()
    ensures NoRepeats([Expr_ArrayDimFetch, Expr_ArrayItem, Expr_Array_, Expr_ArrowFunction, Expr_Assign, Expr_AssignOp] + [Expr_AssignRef, Expr_BinaryOp, Expr_BitwiseNot, Expr_BooleanNot, Expr_Cast, Expr_ClassConstFetch] + [Expr_Clone_, Expr_Closure, Expr_ClosureUse, Expr_ConstFetch, Expr_Empty_, Expr_ErrorSuppress] + [Expr_Eval_, Expr_Exit_, Expr_FuncCall, Expr_Include_, Expr_Instanceof_, Expr_Isset_] + [Expr_List_, Expr_Match_, Expr_MethodCall, Expr_New_, Expr_NullsafeMethodCall, Expr_NullsafePropertyFetch])
  {
    ExprRows3();
    ExprRow4Fresh();
    JoinNoRepeats([Expr_ArrayDimFetch, Expr_ArrayItem, Expr_Array_, Expr_ArrowFunction, Expr_Assign, Expr_AssignOp] + [Expr_AssignRef, Expr_BinaryOp, Expr_BitwiseNot, Expr_BooleanNot, Expr_Cast, Expr_ClassConstFetch] + [Expr_Clone_, Expr_Closure, Expr_ClosureUse, Expr_ConstFetch, Expr_Empty_, Expr_ErrorSuppress] + [Expr_Eval_, Expr_Exit_, Expr_FuncCall, Expr_Include_, Expr_Instanceof_, Expr_Isset_], [Expr_List_, Expr_Match_, Expr_MethodCall, Expr_New_, Expr_NullsafeMethodCall, Expr_NullsafePropertyFetch]);
  }

  /** The first 6 rows of the expr group list no class twice. */
  lemma ExprRows5()
    ensures NoRepeats([Expr_ArrayDimFetch, Expr_ArrayItem, Expr_Array_, Expr_ArrowFunction, Expr_Assign, Expr_AssignOp] + [Expr_AssignRef, Expr_BinaryOp, Expr_BitwiseNot, Expr_BooleanNot, Expr_Cast, Expr_ClassConstFetch] + [Expr_Clone_, Expr_Closure, Expr_ClosureUse, Expr_ConstFetch, Expr_Empty_, Expr_ErrorSuppress] + [Expr_Eval_, Expr_Exit_, Expr_FuncCall, Expr_Include_, Expr_Instanceof_, Expr_Isset_] + [Expr_List_, Expr_Match_, Expr_MethodCall, Expr_New_, Expr_NullsafeMethodCall, Expr_NullsafePropertyFetch] + [Expr_PostDec, Expr_PostInc, Expr_PreDec, Expr_PreInc, Expr_Print_, Expr_PropertyFetch])
  {
    ExprRows4();
    ExprRow5Fresh();
    JoinNoRepeats([Expr_ArrayDimFetch, Expr_ArrayItem, Expr_Array_, Expr_ArrowFunction, Expr_Assign, Expr_AssignOp] + [Expr_AssignRef, Expr_BinaryOp, Expr_BitwiseNot, Expr_BooleanNot, Expr_Cast, Expr_ClassConstFetch] + [Expr_Clone_, Expr_Closure, Expr_ClosureUse, Expr_ConstFetch, Expr_Empty_, Expr_ErrorSuppress] + [Expr_Eval_, Expr_Exit_, Expr_FuncCall, Expr_Include_, Expr_Instanceof_, Expr_Isset_] + [Expr_List_, Expr_Match_, Expr_MethodCall, Expr_New_, Expr_NullsafeMethodCall, Expr_NullsafePropertyFetch], [Expr_PostDec, Expr_PostInc, Expr_PreDec, Expr_PreInc, Expr_Print_, Expr_PropertyFetch]);
  }

  /** The first 7 rows of the expr group list no class twice. */
  lemma ExprRows6()
    ensures NoRepeats([Expr_ArrayDimFetch, Expr_ArrayItem, Expr_Array_, Expr_ArrowFunction, Expr_Assign, Expr_AssignOp] + [Expr_AssignRef, Expr_BinaryOp, Expr_BitwiseNot, Expr_BooleanNot, Expr_Cast, Expr_ClassConstFetch] + [Expr_Clone_, Expr_Closure, Expr_ClosureUse, Expr_ConstFetch, Expr_Empty_, Expr_ErrorSuppress] + [Expr_Eval_, Expr_Exit_, Expr_FuncCall, Expr_Include_, Expr_Instanceof_, Expr_Isset_] + [Expr_List_, Expr_Match_, Expr_MethodCall, Expr_New_, Expr_NullsafeMethodCall, Expr_NullsafePropertyFetch] + [Expr_PostDec, Expr_PostInc, Expr_PreDec, Expr_PreInc, Expr_Print_, Expr_PropertyFetch] + [Expr_ShellExec, Expr_StaticCall, Expr_StaticPropertyFetch, Expr_Ternary, Expr_Throw_, Expr_UnaryMinus])
  {
    ExprRows5();
    ExprRow6Fresh();
    JoinNoRepeats([Expr_ArrayDimFetch, Expr_ArrayItem, Expr_Array_, Expr_ArrowFunction, Expr_Assign, Expr_AssignOp] + [Expr_AssignRef, Expr_BinaryOp, Expr_BitwiseNot, Expr_BooleanNot, Expr_Cast, Expr_ClassConstFetch] + [Expr_Clone_, Expr_Closure, Expr_ClosureUse, Expr_ConstFetch, Expr_Empty_, Expr_ErrorSuppress] + [Expr_Eval_, Expr_Exit_, Expr_FuncCall, Expr_Include_, Expr_Instanceof_, Expr_Isset_] + [Expr_List_, Expr_Match_, Expr_MethodCall, Expr_New_, Expr_NullsafeMethodCall, Expr_NullsafePropertyFetch] + [Expr_PostDec, Expr_PostInc, Expr_PreDec, Expr_PreInc, Expr_Print_, Expr_PropertyFetch], [Expr_ShellExec, Expr_StaticCall, Expr_StaticPropertyFetch, Expr_Ternary, Expr_Throw_, Expr_UnaryMinus]);
  }

  /** The first 8 rows of the expr group list no class twice. */
  lemma ExprRows7()
    ensures NoRepeats([Expr_ArrayDimFetch, Expr_ArrayItem, Expr_Array_, Expr_ArrowFunction, Expr_Assign, Expr_AssignOp] + [Expr_AssignRef, Expr_BinaryOp, Expr_BitwiseNot, Expr_BooleanNot, Expr_Cast, Expr_ClassConstFetch] + [Expr_Clone_, Expr_Closure, Expr_ClosureUse, Expr_ConstFetch, Expr_Empty_, Expr_ErrorSuppress] + [Expr_Eval_, Expr_Exit_, Expr_FuncCall, Expr_Include_, Expr_Instanceof_, Expr_Isset_] + [Expr_List_, Expr_Match_, Expr_MethodCall, Expr_New_, Expr_NullsafeMethodCall, Expr_NullsafePropertyFetch] + [Expr_PostDec, Expr_PostInc, Expr_PreDec, Expr_PreInc, Expr_Print_, Expr_PropertyFetch] + [Expr_ShellExec, Expr_StaticCall, Expr_StaticPropertyFetch, Expr_Ternary, Expr_Throw_, Expr_UnaryMinus] + [Expr_UnaryPlus, Expr_Variable, Expr_YieldFrom, Expr_Yield_])
  {
    ExprRows6();
    ExprRow7Fresh();
    JoinNoRepeats([Expr_ArrayDimFetch, Expr_ArrayItem, Expr_Array_, Expr_ArrowFunction, Expr_Assign, Expr_AssignOp] + [Expr_AssignRef, Expr_BinaryOp, Expr_BitwiseNot, Expr_BooleanNot, Expr_Cast, Expr_ClassConstFetch] + [Expr_Clone_, Expr_Closure, Expr_ClosureUse, Expr_ConstFetch, Expr_Empty_, Expr_ErrorSuppress] + [Expr_Eval_, Expr_Exit_, Expr_FuncCall, Expr_Include_, Expr_Instanceof_, Expr_Isset_] + [Expr_List_, Expr_Match_, Expr_MethodCall, Expr_New_, Expr_NullsafeMethodCall, Expr_NullsafePropertyFetch] + [Expr_PostDec, Expr_PostInc, Expr_PreDec, Expr_PreInc, Expr_Print_, Expr_PropertyFetch] + [Expr_ShellExec, Expr_StaticCall, Expr_StaticPropertyFetch, Expr_Ternary, Expr_Throw_, Expr_UnaryMinus], [Expr_UnaryPlus, Expr_Variable, Expr_YieldFrom, Expr_Yield_]);
  }

  /** The expr group lists no class twice. */
  lemma ExprNoRepeats()
    ensures NoRepeats(ExprRegistrations())
  {
    ExprRows7();
  }

  /** The name group lists no class twice. */
  lemma NameNoRepeats()
    ensures NoRepeats(NameRegistrations())
  {
  }

  /** The scalar group lists no class twice. */
  lemma ScalarNoRepeats()
    ensures NoRepeats(ScalarRegistrations())
  {
  }

  /** Row 1 of the stmt group repeats no class of the rows before it. */
  lemma StmtRow1Fresh()
    ensures forall x :: x in [Stmt_Class_, Stmt_Const_, Stmt_Continue_, Stmt_DeclareDeclare, Stmt_Declare_, Stmt_Do_] ==> x !in [Stmt_Break_, Stmt_Case_, Stmt_Catch_, Stmt_ClassConst, Stmt_ClassLike, Stmt_ClassMethod]
  {
  }

  /** Row 2 of the stmt group repeats no class of the rows before it. */
  lemma StmtRow2Fresh()
    ensures forall x :: x in [Stmt_Echo_, Stmt_ElseIf_, Stmt_Else_, Builder_EnumCase, Stmt_Enum_, Stmt_Expression] ==> x !in [Stmt_Break_, Stmt_Case_, Stmt_Catch_, Stmt_ClassConst, Stmt_ClassLike, Stmt_ClassMethod] + [Stmt_Class_, Stmt_Const_, Stmt_Continue_, Stmt_DeclareDeclare, Stmt_Declare_, Stmt_Do_]
  {
  }

  /** Row 3 of the stmt group repeats no class of the rows before it. */
  lemma StmtRow3Fresh()
    ensures forall x :: x in [Stmt_Finally_, Stmt_For_, Stmt_Foreach_, Stmt_Function_, Stmt_Global_, Stmt_Goto_] ==> x !in [Stmt_Break_, Stmt_Case_, Stmt_Catch_, Stmt_ClassConst, Stmt_ClassLike, Stmt_ClassMethod] + [Stmt_Class_, Stmt_Const_, Stmt_Continue_, Stmt_DeclareDeclare, Stmt_Declare_, Stmt_Do_] + [Stmt_Echo_, Stmt_ElseIf_, Stmt_Else_, Builder_EnumCase, Stmt_Enum_, Stmt_Expression]
  {
  }

  /** Row 4 of the stmt group repeats no class of the rows before it. */
  lemma StmtRow4Fresh()
    ensures forall x :: x in [Stmt_GroupUse, Stmt_HaltCompiler, Stmt_If_, Stmt_InlineHTML, Stmt_Interface_, Stmt_Label] ==> x !in [Stmt_Break_, Stmt_Case_, Stmt_Catch_, Stmt_ClassConst, Stmt_ClassLike, Stmt_ClassMethod] + [Stmt_Class_, Stmt_Const_, Stmt_Continue_, Stmt_DeclareDeclare, Stmt_Declare_, Stmt_Do_] + [Stmt_Echo_, Stmt_ElseIf_, Stmt_Else_, Builder_EnumCase, Stmt_Enum_, Stmt_Expression] + [Stmt_Finally_, Stmt_For_, Stmt_Foreach_, Stmt_Function_, Stmt_Global_, Stmt_Goto_]
  {
  }

  /** Row 5 of the stmt group repeats no class of the rows before it. */
  lemma StmtRow5Fresh()
    ensures forall x :: x in [Stmt_Namespace_, Stmt_Nop, Stmt_Property, Stmt_PropertyProperty, Stmt_Return_, Stmt_StaticVar] ==> x !in [Stmt_Break_, Stmt_Case_, Stmt_Catch_, Stmt_ClassConst, Stmt_ClassLike, Stmt_ClassMethod] + [Stmt_Class_, Stmt_Const_, Stmt_Continue_, Stmt_DeclareDeclare, Stmt_Declare_, Stmt_Do_] + [Stmt_Echo_, Stmt_ElseIf_, Stmt_Else_, Builder_EnumCase, Stmt_Enum_, Stmt_Expression] + [Stmt_Finally_, Stmt_For_, Stmt_Foreach_, Stmt_Function_, Stmt_Global_, Stmt_Goto_] + [Stmt_GroupUse, Stmt_HaltCompiler, Stmt_If_, Stmt_InlineHTML, Stmt_Interface_, Stmt_Label]
  {
  }

  /** Row 6 of the stmt group repeats no class of the rows before it. */
  lemma StmtRow6Fresh()
    ensures forall x :: x in [Stmt_Static_, Stmt_Switch_, Stmt_Throw_, Stmt_TraitUse, Stmt_TraitUseAdaptation, Stmt_Trait_] ==> x !in [Stmt_Break_, Stmt_Case_, Stmt_Catch_, Stmt_ClassConst, Stmt_ClassLike, Stmt_ClassMethod] + [Stmt_Class_, Stmt_Const_, Stmt_Continue_, Stmt_DeclareDeclare, Stmt_Declare_, Stmt_Do_] + [Stmt_Echo_, Stmt_ElseIf_, Stmt_Else_, Builder_EnumCase, Stmt_Enum_, Stmt_Expression] + [Stmt_Finally_, Stmt_For_, Stmt_Foreach_, Stmt_Function_, Stmt_Global_, Stmt_Goto_] + [Stmt_GroupUse, Stmt_HaltCompiler, Stmt_If_, Stmt_InlineHTML, Stmt_Interface_, Stmt_Label] + [Stmt_Namespace_, Stmt_Nop, Stmt_Property, Stmt_PropertyProperty, Stmt_Return_, Stmt_StaticVar]
  {
  }

  /** Row 7 of the stmt group repeats no class of the rows before it. */
  lemma StmtRow7Fresh()
    ensures forall x :: x in [Stmt_TryCatch, Stmt_Unset_, Stmt_UseUse, Stmt_Use_, Stmt_While_, Stmt_TraitUseAdaptation_Alias] ==> x !in [Stmt_Break_, Stmt_Case_, Stmt_Catch_, Stmt_ClassConst, Stmt_ClassLike, Stmt_ClassMethod] + [Stmt_Class_, Stmt_Const_, Stmt_Continue_, Stmt_DeclareDeclare, Stmt_Declare_, Stmt_Do_] + [Stmt_Echo_, Stmt_ElseIf_, Stmt_Else_, Builder_EnumCase, Stmt_Enum_, Stmt_Expression] + [Stmt_Finally_, Stmt_For_, Stmt_Foreach_, Stmt_Function_, Stmt_Global_, Stmt_Goto_] + [Stmt_GroupUse, Stmt_HaltCompiler, Stmt_If_, Stmt_InlineHTML, Stmt_Interface_, Stmt_Label] + [Stmt_Namespace_, Stmt_Nop, Stmt_Property, Stmt_PropertyProperty, Stmt_Return_, Stmt_StaticVar] + [Stmt_Static_, Stmt_Switch_, Stmt_Throw_, Stmt_TraitUse, Stmt_TraitUseAdaptation, Stmt_Trait_]
  {
  }

  /** Row 8 of the stmt group repeats no class of the rows before it. */
  lemma StmtRow8Fresh()
    ensures forall x :: x in [Stmt_TraitUseAdaptation_Precedence] ==> x !in [Stmt_Break_, Stmt_Case_, Stmt_Catch_, Stmt_ClassConst, Stmt_ClassLike, Stmt_ClassMethod] + [Stmt_Class_, Stmt_Const_, Stmt_Continue_, Stmt_DeclareDeclare, Stmt_Declare_, Stmt_Do_] + [Stmt_Echo_, Stmt_ElseIf_, Stmt_Else_, Builder_EnumCase, Stmt_Enum_, Stmt_Expression] + [Stmt_Finally_, Stmt_For_, Stmt_Foreach_, Stmt_Function_, Stmt_Global_, Stmt_Goto_] + [Stmt_GroupUse, Stmt_HaltCompiler, Stmt_If_, Stmt_InlineHTML, Stmt_Interface_, Stmt_Label] + [Stmt_Namespace_, Stmt_Nop, Stmt_Property, Stmt_PropertyProperty, Stmt_Return_, Stmt_StaticVar] + [Stmt_Static_, Stmt_Switch_, Stmt_Throw_, Stmt_TraitUse, Stmt_TraitUseAdaptation, Stmt_Trait_] + [Stmt_TryCatch, Stmt_Unset_, Stmt_UseUse, Stmt_Use_, Stmt_While_, Stmt_TraitUseAdaptation_Alias]
  {
  }

  /** The first 2 rows of the stmt group list no class twice. */
  lemma StmtRows1()
    ensures NoRepeats([Stmt_Break_, Stmt_Case_, Stmt_Catch_, Stmt_ClassConst, Stmt_ClassLike, Stmt_ClassMethod] + [Stmt_Class_, Stmt_Const_, Stmt_Continue_, Stmt_DeclareDeclare, Stmt_Declare_, Stmt_Do_])
  {
    StmtRow1Fresh();
    JoinNoRepeats([Stmt_Break_, Stmt_Case_, Stmt_Catch_, Stmt_ClassConst, Stmt_ClassLike, Stmt_ClassMethod], [Stmt_Class_, Stmt_Const_, Stmt_Continue_, Stmt_DeclareDeclare, Stmt_Declare_, Stmt_Do_]);
  }

  /** The first 3 rows of the stmt group list no class twice. */
  lemma StmtRows2()
    ensures NoRepeats([Stmt_Break_, Stmt_Case_, Stmt_Catch_, Stmt_ClassConst, Stmt_ClassLike, Stmt_ClassMethod] + [Stmt_Class_, Stmt_Const_, Stmt_Continue_, Stmt_DeclareDeclare, Stmt_Declare_, Stmt_Do_] + [Stmt_Echo_, Stmt_ElseIf_, Stmt_Else_, Builder_EnumCase, Stmt_Enum_, Stmt_Expression])
  {
    StmtRows1();
    StmtRow2Fresh();
    JoinNoRepeats([Stmt_Break_, Stmt_Case_, Stmt_Catch_, Stmt_ClassConst, Stmt_ClassLike, Stmt_ClassMethod] + [Stmt_Class_, Stmt_Const_, Stmt_Continue_, Stmt_DeclareDeclare, Stmt_Declare_, Stmt_Do_], [Stmt_Echo_, Stmt_ElseIf_, Stmt_Else_, Builder_EnumCase, Stmt_Enum_, Stmt_Expression]);
  }

  /** The first 4 rows of the stmt group list no class twice. */
  lemma StmtRows3()
    ensures NoRepeats([Stmt_Break_, Stmt_Case_, Stmt_Catch_, Stmt_ClassConst, Stmt_ClassLike, Stmt_ClassMethod] + [Stmt_Class_, Stmt_Const_, Stmt_Continue_, Stmt_DeclareDeclare, Stmt_Declare_, Stmt_Do_] + [Stmt_Echo_, Stmt_ElseIf_, Stmt_Else_, Builder_EnumCase, Stmt_Enum_, Stmt_Expression] + [Stmt_Finally_, Stmt_For_, Stmt_Foreach_, Stmt_Function_, Stmt_Global_, Stmt_Goto_])
  {
    StmtRows2();
    StmtRow3Fresh();
    JoinNoRepeats([Stmt_Break_, Stmt_Case_, Stmt_Catch_, Stmt_ClassConst, Stmt_ClassLike, Stmt_ClassMethod] + [Stmt_Class_, Stmt_Const_, Stmt_Continue_, Stmt_DeclareDeclare, Stmt_Declare_, Stmt_Do_] + [Stmt_Echo_, Stmt_ElseIf_, Stmt_Else_, Builder_EnumCase, Stmt_Enum_, Stmt_Expression], [Stmt_Finally_, Stmt_For_, Stmt_Foreach_, Stmt_Function_, Stmt_Global_, Stmt_Goto_]);
  }

  /** The first 5 rows of the stmt group list no class twice. */
  lemma StmtRows4()
    ensures NoRepeats([Stmt_Break_, Stmt_Case_, Stmt_Catch_, Stmt_ClassConst, Stmt_ClassLike, Stmt_ClassMethod] + [Stmt_Class_, Stmt_Const_, Stmt_Continue_, Stmt_DeclareDeclare, Stmt_Declare_, Stmt_Do_] + [Stmt_Echo_, Stmt_ElseIf_, Stmt_Else_, Builder_EnumCase, Stmt_Enum_, Stmt_Expression] + [Stmt_Finally_, Stmt_For_, Stmt_Foreach_, Stmt_Function_, Stmt_Global_, Stmt_Goto_] + [Stmt_GroupUse, Stmt_HaltCompiler, Stmt_If_, Stmt_InlineHTML, Stmt_Interface_, Stmt_Label])
  {
    StmtRows3();
    StmtRow4Fresh();
    JoinNoRepeats([Stmt_Break_, Stmt_Case_, Stmt_Catch_, Stmt_ClassConst, Stmt_ClassLike, Stmt_ClassMethod] + [Stmt_Class_, Stmt_Const_, Stmt_Continue_, Stmt_DeclareDeclare, Stmt_Declare_, Stmt_Do_] + [Stmt_Echo_, Stmt_ElseIf_, Stmt_Else_, Builder_EnumCase, Stmt_Enum_, Stmt_Expression] + [Stmt_Finally_, Stmt_For_, Stmt_Foreach_, Stmt_Function_, Stmt_Global_, Stmt_Goto_], [Stmt_GroupUse, Stmt_HaltCompiler, Stmt_If_, Stmt_InlineHTML, Stmt_Interface_, Stmt_Label]);
  }

  /** The first 6 rows of the stmt group list no class twice. */
  lemma StmtRows5()
    ensures NoRepeats([Stmt_Break_, Stmt_Case_, Stmt_Catch_, Stmt_ClassConst, Stmt_ClassLike, Stmt_ClassMethod] + [Stmt_Class_, Stmt_Const_, Stmt_Continue_, Stmt_DeclareDeclare, Stmt_Declare_, Stmt_Do_] + [Stmt_Echo_, Stmt_ElseIf_, Stmt_Else_, Builder_EnumCase, Stmt_Enum_, Stmt_Expression] + [Stmt_Finally_, Stmt_For_, Stmt_Foreach_, Stmt_Function_, Stmt_Global_, Stmt_Goto_] + [Stmt_GroupUse, Stmt_HaltCompiler, Stmt_If_, Stmt_InlineHTML, Stmt_Interface_, Stmt_Label] + [Stmt_Namespace_, Stmt_Nop, Stmt_Property, Stmt_PropertyProperty, Stmt_Return_, Stmt_StaticVar])
  {
    StmtRows4();
    StmtRow5Fresh();
    JoinNoRepeats([Stmt_Break_, Stmt_Case_, Stmt_Catch_, Stmt_ClassConst, Stmt_ClassLike, Stmt_ClassMethod] + [Stmt_Class_, Stmt_Const_, Stmt_Continue_, Stmt_DeclareDeclare, Stmt_Declare_, Stmt_Do_] + [Stmt_Echo_, Stmt_ElseIf_, Stmt_Else_, Builder_EnumCase, Stmt_Enum_, Stmt_Expression] + [Stmt_Finally_, Stmt_For_, Stmt_Foreach_, Stmt_Function_, Stmt_Global_, Stmt_Goto_] + [Stmt_GroupUse, Stmt_HaltCompiler, Stmt_If_, Stmt_InlineHTML, Stmt_Interface_, Stmt_Label], [Stmt_Namespace_, Stmt_Nop, Stmt_Property, Stmt_PropertyProperty, Stmt_Return_, Stmt_StaticVar]);
  }

  /** The first 7 rows of the stmt group list no class twice. */
  lemma StmtRows6()
    ensures NoRepeats([Stmt_Break_, Stmt_Case_, Stmt_Catch_, Stmt_ClassConst, Stmt_ClassLike, Stmt_ClassMethod] + [Stmt_Class_, Stmt_Const_, Stmt_Continue_, Stmt_DeclareDeclare, Stmt_Declare_, Stmt_Do_] + [Stmt_Echo_, Stmt_ElseIf_, Stmt_Else_, Builder_EnumCase, Stmt_Enum_, Stmt_Expression] + [Stmt_Finally_, Stmt_For_, Stmt_Foreach_, Stmt_Function_, Stmt_Global_, Stmt_Goto_] + [Stmt_GroupUse, Stmt_HaltCompiler, Stmt_If_, Stmt_InlineHTML, Stmt_Interface_, Stmt_Label] + [Stmt_Namespace_, Stmt_Nop, Stmt_Property, Stmt_PropertyProperty, Stmt_Return_, Stmt_StaticVar] + [Stmt_Static_, Stmt_Switch_, Stmt_Throw_, Stmt_TraitUse, Stmt_TraitUseAdaptation, Stmt_Trait_])
  {
    StmtRows5();
    StmtRow6Fresh();
    JoinNoRepeats([Stmt_Break_, Stmt_Case_, Stmt_Catch_, Stmt_ClassConst, Stmt_ClassLike, Stmt_ClassMethod] + [Stmt_Class_, Stmt_Const_, Stmt_Continue_, Stmt_DeclareDeclare, Stmt_Declare_, Stmt_Do_] + [Stmt_Echo_, Stmt_ElseIf_, Stmt_Else_, Builder_EnumCase, Stmt_Enum_, Stmt_Expression] + [Stmt_Finally_, Stmt_For_, Stmt_Foreach_, Stmt_Function_, Stmt_Global_, Stmt_Goto_] + [Stmt_GroupUse, Stmt_HaltCompiler, Stmt_If_, Stmt_InlineHTML, Stmt_Interface_, Stmt_Label] + [Stmt_Namespace_, Stmt_Nop, Stmt_Property, Stmt_PropertyProperty, Stmt_Return_, Stmt_StaticVar], [Stmt_Static_, Stmt_Switch_, Stmt_Throw_, Stmt_TraitUse, Stmt_TraitUseAdaptation, Stmt_Trait_]);
  }

  /** The first 8 rows of the stmt group list no class twice. */
  lemma StmtRows7()
    ensures NoRepeats([Stmt_Break_, Stmt_Case_, Stmt_Catch_, Stmt_ClassConst, Stmt_ClassLike, Stmt_ClassMethod] + [Stmt_Class_, Stmt_Const_, Stmt_Continue_, Stmt_DeclareDeclare, Stmt_Declare_, Stmt_Do_] + [Stmt_Echo_, Stmt_ElseIf_, Stmt_Else_, Builder_EnumCase, Stmt_Enum_, Stmt_Expression] + [Stmt_Finally_, Stmt_For_, Stmt_Foreach_, Stmt_Function_, Stmt_Global_, Stmt_Goto_] + [Stmt_GroupUse, Stmt_HaltCompiler, Stmt_If_, Stmt_InlineHTML, Stmt_Interface_, Stmt_Label] + [Stmt_Namespace_, Stmt_Nop, Stmt_Property, Stmt_PropertyProperty, Stmt_Return_, Stmt_StaticVar] + [Stmt_Static_, Stmt_Switch_, Stmt_Throw_, Stmt_TraitUse, Stmt_TraitUseAdaptation, Stmt_Trait_] + [Stmt_TryCatch, Stmt_Unset_, Stmt_UseUse, Stmt_Use_, Stmt_While_, Stmt_TraitUseAdaptation_Alias])
  {
    StmtRows6();
    StmtRow7Fresh();
    JoinNoRepeats([Stmt_Break_, Stmt_Case_, Stmt_Catch_, Stmt_ClassConst, Stmt_ClassLike, Stmt_ClassMethod] + [Stmt_Class_, Stmt_Const_, Stmt_Continue_, Stmt_DeclareDeclare, Stmt_Declare_, Stmt_Do_] + [Stmt_Echo_, Stmt_ElseIf_, Stmt_Else_, Builder_EnumCase, Stmt_Enum_, Stmt_Expression] + [Stmt_Finally_, Stmt_For_, Stmt_Foreach_, Stmt_Function_, Stmt_Global_, Stmt_Goto_] + [Stmt_GroupUse, Stmt_HaltCompiler, Stmt_If_, Stmt_InlineHTML, Stmt_Interface_, Stmt_Label] + [Stmt_Namespace_, Stmt_Nop, Stmt_Property, Stmt_PropertyProperty, Stmt_Return_, Stmt_StaticVar] + [Stmt_Static_, Stmt_Switch_, Stmt_Throw_, Stmt_TraitUse, Stmt_TraitUseAdaptation, Stmt_Trait_], [Stmt_TryCatch, Stmt_Unset_, Stmt_UseUse, Stmt_Use_, Stmt_While_, Stmt_TraitUseAdaptation_Alias]);
  }

  /** The first 9 rows of the stmt group list no class twice. */
  lemma StmtRows8()
    ensures NoRepeats([Stmt_Break_, Stmt_Case_, Stmt_Catch_, Stmt_ClassConst, Stmt_ClassLike, Stmt_ClassMethod] + [Stmt_Class_, Stmt_Const_, Stmt_Continue_, Stmt_DeclareDeclare, Stmt_Declare_, Stmt_Do_] + [Stmt_Echo_, Stmt_ElseIf_, Stmt_Else_, Builder_EnumCase, Stmt_Enum_, Stmt_Expression] + [Stmt_Finally_, Stmt_For_, Stmt_Foreach_, Stmt_Function_, Stmt_Global_, Stmt_Goto_] + [Stmt_GroupUse, Stmt_HaltCompiler, Stmt_If_, Stmt_InlineHTML, Stmt_Interface_, Stmt_Label] + [Stmt_Namespace_, Stmt_Nop, Stmt_Property, Stmt_PropertyProperty, Stmt_Return_, Stmt_StaticVar] + [Stmt_Static_, Stmt_Switch_, Stmt_Throw_, Stmt_TraitUse, Stmt_TraitUseAdaptation, Stmt_Trait_] + [Stmt_TryCatch, Stmt_Unset_, Stmt_UseUse, Stmt_Use_, Stmt_While_, Stmt_TraitUseAdaptation_Alias] + [Stmt_TraitUseAdaptation_Precedence])
  {
    StmtRows7();
    StmtRow8Fresh();
    JoinNoRepeats([Stmt_Break_, Stmt_Case_, Stmt_Catch_, Stmt_ClassConst, Stmt_ClassLike, Stmt_ClassMethod] + [Stmt_Class_, Stmt_Const_, Stmt_Continue_, Stmt_DeclareDeclare, Stmt_Declare_, Stmt_Do_] + [Stmt_Echo_, Stmt_ElseIf_, Stmt_Else_, Builder_EnumCase, Stmt_Enum_, Stmt_Expression] + [Stmt_Finally_, Stmt_For_, Stmt_Foreach_, Stmt_Function_, Stmt_Global_, Stmt_Goto_] + [Stmt_GroupUse, Stmt_HaltCompiler, Stmt_If_, Stmt_InlineHTML, Stmt_Interface_, Stmt_Label] + [Stmt_Namespace_, Stmt_Nop, Stmt_Property, Stmt_PropertyProperty, Stmt_Return_, Stmt_StaticVar] + [Stmt_Static_, Stmt_Switch_, Stmt_Throw_, Stmt_TraitUse, Stmt_TraitUseAdaptation, Stmt_Trait_] + [Stmt_TryCatch, Stmt_Unset_, Stmt_UseUse, Stmt_Use_, Stmt_While_, Stmt_TraitUseAdaptation_Alias], [Stmt_TraitUseAdaptation_Precedence]);
  }

  /** The stmt group lists no class twice. */
  lemma StmtNoRepeats()
    ensures NoRepeats(StmtRegistrations())
  {
    StmtRows8();
  }

  /** Row 1 of the other group repeats no class of the rows before it. */
  lemma OtherRow1Fresh()
    ensures forall x :: x in [MatchArm, Name, NullableType, Param, UnionType, VarLikeIdentifier] ==> x !in [Arg, Attribute, AttributeGroup, Const_, Identifier, IntersectionType]
  {
  }

  /** Row 2 of the other group repeats no class of the rows before it. */
  lemma OtherRow2Fresh()
    ensures forall x :: x in [VariadicPlaceholder] ==> x !in [Arg, Attribute, AttributeGroup, Const_, Identifier, IntersectionType] + [MatchArm, Name, NullableType, Param, UnionType, VarLikeIdentifier]
  {
  }

  /** The first 2 rows of the other group list no class twice. */
  lemma OtherRows1()
    ensures NoRepeats([Arg, Attribute, AttributeGroup, Const_, Identifier, IntersectionType] + [MatchArm, Name, NullableType, Param, UnionType, VarLikeIdentifier])
  {
    OtherRow1Fresh();
    JoinNoRepeats([Arg, Attribute, AttributeGroup, Const_, Identifier, IntersectionType], [MatchArm, Name, NullableType, Param, UnionType, VarLikeIdentifier]);
  }

  /** The first 3 rows of the other group list no class twice. */
  lemma OtherRows2()
    ensures NoRepeats([Arg, Attribute, AttributeGroup, Const_, Identifier, IntersectionType] + [MatchArm, Name, NullableType, Param, UnionType, VarLikeIdentifier] + [VariadicPlaceholder])
  {
    OtherRows1();
    OtherRow2Fresh();
    JoinNoRepeats([Arg, Attribute, AttributeGroup, Const_, Identifier, IntersectionType] + [MatchArm, Name, NullableType, Param, UnionType, VarLikeIdentifier], [VariadicPlaceholder]);
  }

  /** The other group lists no class twice. */
  lemma OtherNoRepeats()
    ensures NoRepeats(OtherRegistrations())
  {
    OtherRows2();
  }

  /** Row 0 of the name group names no class of the groups before it. */
  lemma NameRow0AfterEarlierGroups()
    ensures forall x :: x in [Name_FullyQualified, Name_Relative] ==> x !in ExprRegistrations()
  {
  }

  /** The name group names no class of the groups before it. */
  lemma NameAfterEarlierGroups()
    ensures forall x :: x in NameRegistrations() ==> x !in ExprRegistrations()
  {
    NameRow0AfterEarlierGroups();
  }

  /** Row 0 of the scalar group names no class of the groups before it. */
  lemma ScalarRow0AfterEarlierGroups()
    ensures forall x :: x in [Scalar_DNumber, Scalar_Encapsed, Scalar_EncapsedStringPart, Scalar_LNumber, Scalar_MagicConst, Scalar_String_] ==> x !in ExprRegistrations() + NameRegistrations()
  {
  }

  /** The scalar group names no class of the groups before it. */
  lemma ScalarAfterEarlierGroups()
    ensures forall x :: x in ScalarRegistrations() ==> x !in ExprRegistrations() + NameRegistrations()
  {
    ScalarRow0AfterEarlierGroups();
  }

  /** Row 0 of the stmt group names no class of the groups before it. */
  lemma StmtRow0AfterEarlierGroups()
    ensures forall x :: x in [Stmt_Break_, Stmt_Case_, Stmt_Catch_, Stmt_ClassConst, Stmt_ClassLike, Stmt_ClassMethod] ==> x !in ExprRegistrations() + NameRegistrations() + ScalarRegistrations()
  {
  }

  /** Row 1 of the stmt group names no class of the groups before it. */
  lemma StmtRow1AfterEarlierGroups()
    ensures forall x :: x in [Stmt_Class_, Stmt_Const_, Stmt_Continue_, Stmt_DeclareDeclare, Stmt_Declare_, Stmt_Do_] ==> x !in ExprRegistrations() + NameRegistrations() + ScalarRegistrations()
  {
  }

  /** Row 2 of the stmt group names no class of the groups before it. */
  lemma StmtRow2AfterEarlierGroups()
    ensures forall x :: x in [Stmt_Echo_, Stmt_ElseIf_, Stmt_Else_, Builder_EnumCase, Stmt_Enum_, Stmt_Expression] ==> x !in ExprRegistrations() + NameRegistrations() + ScalarRegistrations()
  {
  }

  /** Row 3 of the stmt group names no class of the groups before it. */
  lemma StmtRow3AfterEarlierGroups()
    ensures forall x :: x in [Stmt_Finally_, Stmt_For_, Stmt_Foreach_, Stmt_Function_, Stmt_Global_, Stmt_Goto_] ==> x !in ExprRegistrations() + NameRegistrations() + ScalarRegistrations()
  {
  }

  /** Row 4 of the stmt group names no class of the groups before it. */
  lemma StmtRow4AfterEarlierGroups()
    ensures forall x :: x in [Stmt_GroupUse, Stmt_HaltCompiler, Stmt_If_, Stmt_InlineHTML, Stmt_Interface_, Stmt_Label] ==> x !in ExprRegistrations() + NameRegistrations() + ScalarRegistrations()
  {
  }

  /** Row 5 of the stmt group names no class of the groups before it. */
  lemma StmtRow5AfterEarlierGroups()
    ensures forall x :: x in [Stmt_Namespace_, Stmt_Nop, Stmt_Property, Stmt_PropertyProperty, Stmt_Return_, Stmt_StaticVar] ==> x !in ExprRegistrations() + NameRegistrations() + ScalarRegistrations()
  {
  }

  /** Row 6 of the stmt group names no class of the groups before it. */
  lemma StmtRow6AfterEarlierGroups()
    ensures forall x :: x in [Stmt_Static_, Stmt_Switch_, Stmt_Throw_, Stmt_TraitUse, Stmt_TraitUseAdaptation, Stmt_Trait_] ==> x !in ExprRegistrations() + NameRegistrations() + ScalarRegistrations()
  {
  }

  /** Row 7 of the stmt group names no class of the groups before it. */
  lemma StmtRow7AfterEarlierGroups()
    ensures forall x :: x in [Stmt_TryCatch, Stmt_Unset_, Stmt_UseUse, Stmt_Use_, Stmt_While_, Stmt_TraitUseAdaptation_Alias] ==> x !in ExprRegistrations() + NameRegistrations() + ScalarRegistrations()
  {
  }

  /** Row 8 of the stmt group names no class of the groups before it. */
  lemma StmtRow8AfterEarlierGroups()
    ensures forall x :: x in [Stmt_TraitUseAdaptation_Precedence] ==> x !in ExprRegistrations() + NameRegistrations() + ScalarRegistrations()
  {
  }

  /** The stmt group names no class of the groups before it. */
  lemma StmtAfterEarlierGroups()
    ensures forall x :: x in StmtRegistrations() ==> x !in ExprRegistrations() + NameRegistrations() + ScalarRegistrations()
  {
    StmtRow0AfterEarlierGroups();
    StmtRow1AfterEarlierGroups();
    StmtRow2AfterEarlierGroups();
    StmtRow3AfterEarlierGroups();
    StmtRow4AfterEarlierGroups();
    StmtRow5AfterEarlierGroups();
    StmtRow6AfterEarlierGroups();
    StmtRow7AfterEarlierGroups();
    StmtRow8AfterEarlierGroups();
  }

  /** Row 0 of the other group names no expression, name or scalar class. */
  lemma OtherRow0AfterBeforeStatements()
    ensures forall x :: x in [Arg, Attribute, AttributeGroup, Const_, Identifier, IntersectionType] ==> x !in ExprRegistrations() + NameRegistrations() + ScalarRegistrations()
  {
  }

  /** Row 0 of the other group names no statement class. */
  lemma OtherRow0AfterStatements()
    ensures forall x :: x in [Arg, Attribute, AttributeGroup, Const_, Identifier, IntersectionType] ==> x !in StmtRegistrations()
  {
    OtherRow0Part0AfterStatements();
    OtherRow0Part1AfterStatements();
  }

  /** Part 0 of row 0 of the other group names no statement class. */
  lemma OtherRow0Part0AfterStatements()
    ensures forall x :: x in [Arg, Attribute, AttributeGroup] ==> x !in StmtRegistrations()
  {
  }

  /** Part 1 of row 0 of the other group names no statement class. */
  lemma OtherRow0Part1AfterStatements()
    ensures forall x :: x in [Const_, Identifier, IntersectionType] ==> x !in StmtRegistrations()
  {
  }

  /** Row 1 of the other group names no expression, name or scalar class. */
  lemma OtherRow1AfterBeforeStatements()
    ensures forall x :: x in [MatchArm, Name, NullableType, Param, UnionType, VarLikeIdentifier] ==> x !in ExprRegistrations() + NameRegistrations() + ScalarRegistrations()
  {
  }

  /** Row 1 of the other group names no statement class. */
  lemma OtherRow1AfterStatements()
    ensures forall x :: x in [MatchArm, Name, NullableType, Param, UnionType, VarLikeIdentifier] ==> x !in StmtRegistrations()
  {
    OtherRow1Part0AfterStatements();
    OtherRow1Part1AfterStatements();
  }

  /** Part 0 of row 1 of the other group names no statement class. */
  lemma OtherRow1Part0AfterStatements()
    ensures forall x :: x in [MatchArm, Name, NullableType] ==> x !in StmtRegistrations()
  {
  }

  /** Part 1 of row 1 of the other group names no statement class. */
  lemma OtherRow1Part1AfterStatements()
    ensures forall x :: x in [Param, UnionType, VarLikeIdentifier] ==> x !in StmtRegistrations()
  {
  }

  /** Row 2 of the other group names no expression, name or scalar class. */
  lemma OtherRow2AfterBeforeStatements()
    ensures forall x :: x in [VariadicPlaceholder] ==> x !in ExprRegistrations() + NameRegistrations() + ScalarRegistrations()
  {
  }

  /** Row 2 of the other group names no statement class. */
  lemma OtherRow2AfterStatements()
    ensures forall x :: x in [VariadicPlaceholder] ==> x !in StmtRegistrations()
  {
    OtherRow2Part0AfterStatements();
  }

  /** Part 0 of row 2 of the other group names no statement class. */
  lemma OtherRow2Part0AfterStatements()
    ensures forall x :: x in [VariadicPlaceholder] ==> x !in StmtRegistrations()
  {
  }

  /** The other group names no class of the groups before it. */
  lemma OtherAfterEarlierGroups()
    ensures forall x :: x in OtherRegistrations() ==> x !in ExprRegistrations() + NameRegistrations() + ScalarRegistrations() + StmtRegistrations()
  {
    OtherRow0AfterBeforeStatements();
    OtherRow0AfterStatements();
    OtherRow1AfterBeforeStatements();
    OtherRow1AfterStatements();
    OtherRow2AfterBeforeStatements();
    OtherRow2AfterStatements();
  }

  /** The registrar lists every class once, so no map call of its own is refused. */
  lemma RegistrationsDistinct()
    ensures forall i, j :: 0 <= i < j < |Registrations()| ==> Registrations()[i] != Registrations()[j]
  {
    ExprNoRepeats();
    NameNoRepeats();
    ScalarNoRepeats();
    StmtNoRepeats();
    OtherNoRepeats();
    NameAfterEarlierGroups();
    JoinNoRepeats(ExprRegistrations(), NameRegistrations());
    ScalarAfterEarlierGroups();
    JoinNoRepeats(ExprRegistrations() + NameRegistrations(), ScalarRegistrations());
    StmtAfterEarlierGroups();
    JoinNoRepeats(ExprRegistrations() + NameRegistrations() + ScalarRegistrations(), StmtRegistrations());
    OtherAfterEarlierGroups();
    JoinNoRepeats(ExprRegistrations() + NameRegistrations() + ScalarRegistrations() + StmtRegistrations(), OtherRegistrations());
  }

  /** ClassLike is registered before Class_, which includes it. */
  lemma ClassLikeBeforeClass()
    ensures StmtRegistrations()[4] == Stmt_ClassLike && StmtRegistrations()[6] == Stmt_Class_
  {
  }

  /** ClassLike is registered before Trait_, which includes it. */
  lemma ClassLikeBeforeTrait()
    ensures StmtRegistrations()[4] == Stmt_ClassLike && StmtRegistrations()[41] == Stmt_Trait_
  {
  }

  /** TraitUseAdaptation is registered before Alias and Precedence, which include it. */
  lemma AdaptationBeforeAliasAndPrecedence()
    ensures StmtRegistrations()[40] == Stmt_TraitUseAdaptation
    ensures StmtRegistrations()[47] == Stmt_TraitUseAdaptation_Alias
    ensures StmtRegistrations()[48] == Stmt_TraitUseAdaptation_Precedence
  {
  }

  /** A class is in the set an order names exactly when it occurs in the order. */
  lemma InNamed(order: seq<Cls>, x: Cls)
    ensures x in Named(order) <==> x in order
  {
    if x in order {
      var i :| 0 <= i < |order| && order[i] == x;
    }
  }

  /**
   * The builder's EnumCase is registered in place of the AST node
   * Stmt\EnumCase, which is therefore never given sub node information,
   * whether or not the registration passes.
   */
  lemma EnumCaseNodeUnregistered(others: set<Cls>, order: seq<Cls>)
    requires order == Registrations()
    ensures Stmt_EnumCase !in order
    ensures Stmt_EnumCase !in RegisterAll(map[], others, order, Recipe).0
  {
    EnumCaseNodeNotListed();
    RegisterAllKeeps(map[], others, order, Recipe);
    InNamed(order, Stmt_EnumCase);
  }

  /** The order names the builder's EnumCase, at 15 among the statements, and not the AST node. */
  lemma EnumCaseNodeNotListed()
    ensures Stmt_EnumCase !in Registrations()
    ensures StmtRegistrations()[15] == Builder_EnumCase
  {
    assert Stmt_EnumCase !in ExprRegistrations();
    assert Stmt_EnumCase !in StmtRegistrations();
    assert Stmt_EnumCase !in OtherRegistrations();
  }

  /** The order with the AST node Stmt\EnumCase in the builder's place. */
  function FixedRegistrations(): seq<Cls>
  {
    GroupSizes();
    ExprRegistrations() + NameRegistrations() + ScalarRegistrations() +
      StmtRegistrations()[15 := Stmt_EnumCase] + OtherRegistrations()
  }

  /** The chains, with the enum case's chain under the AST node. */
  function FixedRecipe(c: Cls): seq<Step>
  {
    if c == Stmt_EnumCase then Recipe(Builder_EnumCase)
    else if c == Builder_EnumCase then []
    else Recipe(c)
  }

  /** The chain the enum case is registered with. */
  lemma EnumCaseRecipe()
    ensures Recipe(Builder_EnumCase) ==
      [With("name", One("PhpParser\\Node\\Identifier"), false, false),
       With("expr", One("PhpParser\\Node\\Expr"), false, true),
       WithAttrGroups]
  {
  }

  /** The fixed order names the AST node. */
  lemma FixedListsEnumCaseNode()
    ensures Stmt_EnumCase in FixedRegistrations()
  {
    GroupSizes();
    assert StmtRegistrations()[15 := Stmt_EnumCase][15] == Stmt_EnumCase;
  }

  /** The fixed order no longer names the builder. */
  lemma FixedDropsBuilder()
    ensures Builder_EnumCase !in FixedRegistrations()
  {
    FixedStatementsDropBuilder();
    assert Builder_EnumCase !in ExprRegistrations();
    assert Builder_EnumCase !in OtherRegistrations();
  }

  lemma FixedStatementsDropBuilder()
    ensures Builder_EnumCase !in StmtRegistrations()[15 := Stmt_EnumCase]
  {
    GroupSizes();
    var st := StmtRegistrations()[15 := Stmt_EnumCase];
    assert forall i :: 0 <= i < |st| && i != 15 ==> st[i] == StmtRegistrations()[i];
  }

  /** With the fix, Stmt\EnumCase is registered whenever the registration passes. */
  lemma EnumCaseNodeRegistered(others: set<Cls>, order: seq<Cls>)
    requires order == FixedRegistrations()
    ensures Stmt_EnumCase in order
    ensures RegisterAll(map[], others, order, FixedRecipe).1.Pass? ==> Stmt_EnumCase in RegisterAll(map[], others, order, FixedRecipe).0
  {
    FixedListsEnumCaseNode();
    RegisterAllKeeps(map[], others, order, FixedRecipe);
    InNamed(order, Stmt_EnumCase);
  }

  /**
   * The enum case's chain, which the fix runs for Stmt\EnumCase, gives it `name` (Identifier), `expr` (Expr
   * or null) and `attrGroups` (array of AttributeGroup).
   */
  lemma EnumCaseNodeSlots(known: map<Cls, seq<Slot>>, others: set<Cls>, steps: seq<Step>)
    requires steps == Recipe(Builder_EnumCase)
    ensures Steps([], steps, known, others, Stmt_EnumCase) ==
      ([Slot("name", Make(One("PhpParser\\Node\\Identifier"), false, false)),
        Slot("expr", Make(One("PhpParser\\Node\\Expr"), false, true)),
        Slot("attrGroups", Make(One("PhpParser\\Node\\AttributeGroup"), true, false))], Pass)
  {
    var x := Slot("name", Make(One("PhpParser\\Node\\Identifier"), false, false));
    var y := Slot("expr", Make(One("PhpParser\\Node\\Expr"), false, true));
    var z := Slot("attrGroups", Make(One("PhpParser\\Node\\AttributeGroup"), true, false));
    EnumCaseRecipe();
    WithApplies([], "name", One("PhpParser\\Node\\Identifier"), false, false, known, others, Stmt_EnumCase);
    assert !Defined([x], "expr");
    WithApplies([x], "expr", One("PhpParser\\Node\\Expr"), false, true, known, others, Stmt_EnumCase);
    assert !Defined([x, y], "attrGroups");
    ThreeSteps(With("name", One("PhpParser\\Node\\Identifier"), false, false), With("expr", One("PhpParser\\Node\\Expr"), false, true), WithAttrGroups,
      x, y, z, known, others, Stmt_EnumCase);
  }

  // ---------------------------------------------------------------- classes registered bare

  /** ShellExec and MagicConst are registered without slots. */
  lemma BareExpressions()
    ensures Recipe(Expr_ShellExec) == [] && Recipe(Scalar_MagicConst) == []
  {
  }

  /** Name's subclasses FullyQualified and Relative are registered without slots. */
  lemma BareNames()
    ensures Recipe(Name_FullyQualified) == [] && Recipe(Name_Relative) == []
  {
  }

  /** Name itself is registered without slots. */
  lemma BareName()
    ensures Recipe(Name) == []
  {
  }

  /** Nop, VarLikeIdentifier and VariadicPlaceholder are registered without slots. */
  lemma BareOthers()
    ensures Recipe(Stmt_Nop) == [] && Recipe(VarLikeIdentifier) == [] && Recipe(VariadicPlaceholder) == []
  {
  }

  /** A class registered bare ends with no slots, whatever was registered before it. */
  lemma BareRegistered(c: Cls, known: map<Cls, seq<Slot>>, others: set<Cls>)
    requires Recipe(c) == []
    ensures Steps([], Recipe(c), known, others, c) == ([], Pass)
  {
  }
}
