/**
 * LanguageLevelInformationRegistrar: the per-class language-level rules,
 * as a constant table from node class to LanguageLevelInformation, and
 * `map`, which registers every entry of the table in a mapping.
 */
module LanguageLevelRegistrar {
  import opened Wrappers
  import opened PhpClasses
  import opened PhpValues
  import opened LanguageLevel
  import opened LanguageLevelRules
  import opened NodeInformation
  import opened Registry

  /**
   * What addMapping is handed as `from` or `to`: a fixed level, or one of
   * the closures of the table, each named after the node class it inspects.
   */
  datatype Rule =
    | Constant(level: Level)
    | ArgClosure
    | ArrayDimFetchClosure
    | ArrayClosure
    | AssignClosure
    | AttributeClosure
    | CatchClosure
    | ClassConstFetchClosure
    | ClassConstClosure
    | ClassMethodClosure
    | ClassMethodToClosure
    | ClassToClosure
    | ClosureUseToClosure
    | ConstFetchClosure
    | ConstClosure
    | EmptyClosure
    | ForeachClosure
    | FunctionClosure
    | InstanceofClosure
    | IssetClosure
    | LNumberToClosure
    | ListClosure
    | MethodCallClosure
    | NewClosure
    | NumericClosure
    | ParamClosure
    | PropertyClosure
    | StaticVarClosure
    | StmtConstClosure
    | UseClosure

  /** The inspector each argument stands for: a level answers itself. */
  function InspectorOf(r: Rule): Inspector
  {
    match r
    case Constant(l) => Fixed(l)
    case ArgClosure => ArgFrom
    case ArrayDimFetchClosure => ArrayDimFetchFrom
    case ArrayClosure => ArrayFrom
    case AssignClosure => AssignFrom
    case AttributeClosure => AttributeFrom
    case CatchClosure => CatchFrom
    case ClassConstFetchClosure => ClassConstFetchFrom
    case ClassConstClosure => ClassConstFrom
    case ClassMethodClosure => ClassMethodFrom
    case ClassMethodToClosure => ClassMethodTo
    case ClassToClosure => ClassTo
    case ClosureUseToClosure => ClosureUseTo
    case ConstFetchClosure => ConstFetchFrom
    case ConstClosure => ConstFrom
    case EmptyClosure => EmptyFrom
    case ForeachClosure => ForeachFrom
    case FunctionClosure => FunctionFrom
    case InstanceofClosure => InstanceofFrom
    case IssetClosure => IssetFrom
    case LNumberToClosure => LNumberTo
    case ListClosure => ListFrom
    case MethodCallClosure => MethodCallFrom
    case NewClosure => NewFrom
    case NumericClosure => NumericFrom
    case ParamClosure => ParamFrom
    case PropertyClosure => PropertyFrom
    case StaticVarClosure => StaticVarFrom
    case StmtConstClosure => StmtConstFrom
    case UseClosure => UseFrom
  }

  /** addMapping's arguments: `from` defaults to PHP 5.2 and `to` to null. */
  datatype Levels = Levels(from: Rule := Constant(PHP5_2), to: Option<Rule> := None)

  /** The information addMapping builds from its arguments. */
  function Entry(l: Levels): LanguageLevelInformation
  {
    LanguageLevelInformation(InspectorOf(l.from), if l.to.Some? then Some(InspectorOf(l.to.value)) else None)
  }

  /** What addMapping is called with for each class; None for a class it does not name. */
  function LevelTable(c: Cls): Option<Levels>
  {
    match c
    case Expr_ArrayDimFetch => Some(Levels(ArrayDimFetchClosure))
    case Expr_ArrayItem => Some(Levels())
    case Expr_Array_ => Some(Levels(ArrayClosure))
    case Expr_ArrowFunction => Some(Levels(Constant(PHP7_4)))
    case Expr_Assign => Some(Levels(AssignClosure))
    case Expr_AssignOp => Some(Levels())
    case Expr_AssignRef => Some(Levels())
    case Expr_BinaryOp => Some(Levels())
    case Expr_BitwiseNot => Some(Levels())
    case Expr_BooleanNot => Some(Levels())
    case Expr_Cast => Some(Levels())
    case Expr_ClassConstFetch => Some(Levels(ClassConstFetchClosure))
    case Expr_Clone_ => Some(Levels())
    case Expr_Closure => Some(Levels(Constant(PHP5_3)))
    case Expr_ClosureUse => Some(Levels(to := Some(ClosureUseToClosure)))
    case Expr_ConstFetch => Some(Levels(ConstFetchClosure))
    case Expr_Empty_ => Some(Levels(EmptyClosure))
    case Expr_Error => Some(Levels())
    case Expr_ErrorSuppress => Some(Levels())
    case Expr_Eval_ => Some(Levels())
    case Expr_Exit_ => Some(Levels())
    case Expr_FuncCall => Some(Levels())
    case Expr_Include_ => Some(Levels())
    case Expr_Instanceof_ => Some(Levels(InstanceofClosure))
    case Expr_Isset_ => Some(Levels(IssetClosure))
    case Expr_List_ => Some(Levels(ListClosure))
    case Expr_Match_ => Some(Levels(Constant(PHP8_0)))
    case Expr_MethodCall => Some(Levels(MethodCallClosure))
    case Expr_New_ => Some(Levels(NewClosure))
    case Expr_NullsafeMethodCall => Some(Levels(Constant(PHP8_0)))
    case Expr_NullsafePropertyFetch => Some(Levels(Constant(PHP8_0)))
    case Expr_PostDec => Some(Levels())
    case Expr_PostInc => Some(Levels())
    case Expr_PreDec => Some(Levels())
    case Expr_PreInc => Some(Levels())
    case Expr_Print_ => Some(Levels())
    case Expr_PropertyFetch => Some(Levels())
    case Expr_ShellExec => Some(Levels())
    case Expr_StaticCall => Some(Levels())
    case Expr_StaticPropertyFetch => Some(Levels())
    case Expr_Ternary => Some(Levels())
    case Expr_Throw_ => Some(Levels(Constant(PHP8_0)))
    case Expr_UnaryMinus => Some(Levels())
    case Expr_UnaryPlus => Some(Levels())
    case Expr_Variable => Some(Levels())
    case Expr_YieldFrom => Some(Levels(Constant(PHP7_0)))
    case Expr_Yield_ => Some(Levels(Constant(PHP5_5)))
    case Expr_Cast_Unset_ => Some(Levels(to := Some(Constant(PHP7_1))))
    case Expr_AssignOp_Pow => Some(Levels(Constant(PHP5_6)))
    case Expr_BinaryOp_Pow => Some(Levels(Constant(PHP5_6)))
    case Expr_AssignOp_Coalesce => Some(Levels(Constant(PHP7_0)))
    case Expr_BinaryOp_Coalesce => Some(Levels(Constant(PHP7_0)))
    case Expr_BinaryOp_Spaceship => Some(Levels(Constant(PHP7_0)))
    case Name_FullyQualified => Some(Levels(Constant(PHP5_3)))
    case Name_Relative => Some(Levels(Constant(PHP5_3)))
    case Scalar_LNumber => Some(Levels(NumericClosure, Some(LNumberToClosure)))
    case Scalar_DNumber => Some(Levels(NumericClosure))
    case Scalar_MagicConst_Dir => Some(Levels(Constant(PHP5_3)))
    case Scalar_MagicConst_Namespace_ => Some(Levels(Constant(PHP5_3)))
    case Scalar_MagicConst_Trait_ => Some(Levels(Constant(PHP5_4)))
    case Stmt_Break_ => Some(Levels())
    case Stmt_Case_ => Some(Levels())
    case Stmt_Catch_ => Some(Levels(CatchClosure))
    case Stmt_ClassConst => Some(Levels(ClassConstClosure))
    case Stmt_ClassMethod => Some(Levels(ClassMethodClosure, Some(ClassMethodToClosure)))
    case Stmt_Class_ => Some(Levels(to := Some(ClassToClosure)))
    case Stmt_Const_ => Some(Levels(StmtConstClosure))
    case Stmt_Continue_ => Some(Levels())
    case Stmt_DeclareDeclare => Some(Levels())
    case Stmt_Declare_ => Some(Levels())
    case Stmt_Do_ => Some(Levels())
    case Stmt_Echo_ => Some(Levels())
    case Stmt_ElseIf_ => Some(Levels())
    case Stmt_Else_ => Some(Levels())
    case Stmt_EnumCase => Some(Levels(Constant(PHP8_1)))
    case Stmt_Enum_ => Some(Levels(Constant(PHP8_1)))
    case Stmt_Expression => Some(Levels())
    case Stmt_Finally_ => Some(Levels(Constant(PHP5_5)))
    case Stmt_For_ => Some(Levels())
    case Stmt_Foreach_ => Some(Levels(ForeachClosure))
    case Stmt_Function_ => Some(Levels(FunctionClosure))
    case Stmt_Global_ => Some(Levels())
    case Stmt_Goto_ => Some(Levels(Constant(PHP5_3)))
    case Stmt_GroupUse => Some(Levels(Constant(PHP7_0)))
    case Stmt_HaltCompiler => Some(Levels())
    case Stmt_If_ => Some(Levels())
    case Stmt_InlineHTML => Some(Levels())
    case Stmt_Interface_ => Some(Levels())
    case Stmt_Label => Some(Levels(Constant(PHP5_3)))
    case Stmt_Namespace_ => Some(Levels(Constant(PHP5_3)))
    case Stmt_Nop => Some(Levels())
    case Stmt_Property => Some(Levels(PropertyClosure))
    case Stmt_PropertyProperty => Some(Levels())
    case Stmt_Return_ => Some(Levels())
    case Stmt_StaticVar => Some(Levels(StaticVarClosure))
    case Stmt_Static_ => Some(Levels())
    case Stmt_Switch_ => Some(Levels())
    case Stmt_Throw_ => Some(Levels(to := Some(Constant(PHP7_4))))
    case Stmt_TraitUse => Some(Levels(Constant(PHP5_4)))
    case Stmt_Trait_ => Some(Levels(Constant(PHP5_4)))
    case Stmt_TryCatch => Some(Levels())
    case Stmt_Unset_ => Some(Levels())
    case Stmt_UseUse => Some(Levels(Constant(PHP5_3)))
    case Stmt_Use_ => Some(Levels(UseClosure))
    case Stmt_While_ => Some(Levels())
    case Stmt_TraitUseAdaptation_Alias => Some(Levels(Constant(PHP5_4)))
    case Stmt_TraitUseAdaptation_Precedence => Some(Levels(Constant(PHP5_4)))
    case Arg => Some(Levels(ArgClosure))
    case Attribute => Some(Levels(AttributeClosure))
    case AttributeGroup => Some(Levels(Constant(PHP8_0)))
    case Const_ => Some(Levels(ConstClosure))
    case Identifier => Some(Levels())
    case IntersectionType => Some(Levels(Constant(PHP8_1)))
    case MatchArm => Some(Levels(Constant(PHP8_0)))
    case Name => Some(Levels(Constant(PHP5_3)))
    case NullableType => Some(Levels(Constant(PHP7_1)))
    case Param => Some(Levels(ParamClosure))
    case Scalar => Some(Levels())
    case UnionType => Some(Levels(Constant(PHP8_0)))
    case VarLikeIdentifier => Some(Levels())
    case VariadicPlaceholder => Some(Levels(Constant(PHP8_1)))
    case _ => None
  }

  /** The table as registered: each entry built by addMapping and wrapped as the mapping's information. */
  function Informations(c: Cls): Option<Information>
  {
    if LevelTable(c).Some? then Some(LevelInfo(Entry(LevelTable(c).value))) else None
  }

  /**
   * map: addMapping for every entry of the table. On a mapping without
   * language-level information it succeeds and adds exactly the table;
   * it fails exactly when a class of the table already has some.
   */
  method Map(mapping: NodeInformationMapping) returns (r: Outcome)
    modifies mapping
    ensures Free(old(mapping.nodeMap), LanguageLevelType) ==>
      r == Pass && mapping.nodeMap == WithEntries(old(mapping.nodeMap), LanguageLevelType, Informations, TableKeys(Informations))
    ensures r.Fail? ==> !Free(old(mapping.nodeMap), LanguageLevelType)
    ensures r.Fail? <==> Clashes(old(mapping.nodeMap), LanguageLevelType, Informations)
  {
    r := MapTable(mapping, LanguageLevelType, Informations);
  }

  /**
   * Fixed levels answer themselves for every node: the information is
   * introduced at `from`, removed after `to` when one is given, and
   * deprecated exactly when one is given.
   */
  lemma ConstantLevelsAnswer(l: Levels, n: Node, semi: KeywordTest)
    requires l.from.Constant? && (l.to.Some? ==> l.to.value.Constant?)
    ensures GetFrom(Entry(l), n, semi) == Ok(l.from.level)
    ensures GetTo(Entry(l), n, semi) == if l.to.Some? then Ok(Some(l.to.value.level)) else Ok(None)
    ensures IsDeprecated(Entry(l)) <==> l.to.Some?
  {
    FixedAnswersItself(l.from.level, n, semi);
    if l.to.Some? {
      FixedAnswersItself(l.to.value.level, n, semi);
    }
  }

  /** Arrow functions are registered as introduced in PHP 7.4 and never removed. */
  lemma ArrowFunctionRegistered()
    ensures LevelTable(Expr_ArrowFunction) == Some(Levels(Constant(PHP7_4)))
  {
  }

  /** match is registered as introduced in PHP 8.0 and never removed. */
  lemma MatchRegistered()
    ensures LevelTable(Expr_Match_) == Some(Levels(Constant(PHP8_0)))
  {
  }

  /** Enums are registered as introduced in PHP 8.1 and never removed. */
  lemma EnumRegistered()
    ensures LevelTable(Stmt_Enum_) == Some(Levels(Constant(PHP8_1)))
  {
  }

  /** A variable is registered with addMapping's defaults: from PHP 5.2, never removed. */
  lemma VariableRegistered()
    ensures LevelTable(Expr_Variable) == Some(Levels())
  {
  }

  /** The statement throw is registered as from PHP 5.2 and removed after 7.4. */
  lemma ThrowStatementRegistered()
    ensures LevelTable(Stmt_Throw_) == Some(Levels(to := Some(Constant(PHP7_4))))
  {
  }

  /** The (unset) cast is registered as from PHP 5.2 and removed after 7.1. */
  lemma UnsetCastRegistered()
    ensures LevelTable(Expr_Cast_Unset_) == Some(Levels(to := Some(Constant(PHP7_1))))
  {
  }

  /** An array access is registered with its closure, and a closure-use with a `to` closure only. */
  lemma ClosuresRegistered()
    ensures LevelTable(Expr_ArrayDimFetch) == Some(Levels(ArrayDimFetchClosure))
    ensures LevelTable(Expr_ClosureUse) == Some(Levels(to := Some(ClosureUseToClosure)))
  {
  }
}
