/**
 * The umbrella labels of SuperclassInformationRegistrar: every node class
 * is labelled with the topmost of its ancestors among the node classes
 * (itself for the roots); the builder class has no label.
 */
module SuperclassLabels {
  import opened Wrappers
  import opened PhpClasses

  /** The label each class is registered with; the builder class is not registered. */
  function Label(c: Cls): Option<Cls>
  {
    match c
    case Arg => Some(Arg)
    case Attribute => Some(Attribute)
    case AttributeGroup => Some(AttributeGroup)
    case ComplexType | IntersectionType | NullableType | UnionType => Some(ComplexType)
    case Const_ => Some(Const_)
    case Expr | Scalar | Expr_ArrayDimFetch | Expr_ArrayItem | Expr_Array_ | Expr_ArrowFunction | Expr_Assign | Expr_AssignOp | Expr_AssignRef | Expr_BinaryOp | Expr_BitwiseNot | Expr_BooleanNot | Expr_CallLike | Expr_Cast | Expr_ClassConstFetch | Expr_Clone_ | Expr_Closure | Expr_ClosureUse | Expr_ConstFetch | Expr_Empty_ | Expr_Error | Expr_ErrorSuppress | Expr_Eval_ | Expr_Exit_ | Expr_FuncCall | Expr_Include_ | Expr_Instanceof_ | Expr_Isset_ | Expr_List_ | Expr_Match_ | Expr_MethodCall | Expr_New_ | Expr_NullsafeMethodCall | Expr_NullsafePropertyFetch | Expr_PostDec | Expr_PostInc | Expr_PreDec | Expr_PreInc | Expr_Print_ | Expr_PropertyFetch | Expr_ShellExec | Expr_StaticCall | Expr_StaticPropertyFetch | Expr_Ternary | Expr_Throw_ | Expr_UnaryMinus | Expr_UnaryPlus | Expr_Variable | Expr_YieldFrom | Expr_Yield_ | Expr_AssignOp_BitwiseAnd | Expr_AssignOp_BitwiseOr | Expr_AssignOp_BitwiseXor | Expr_AssignOp_Coalesce | Expr_AssignOp_Concat | Expr_AssignOp_Div | Expr_AssignOp_Minus | Expr_AssignOp_Mod | Expr_AssignOp_Mul | Expr_AssignOp_Plus | Expr_AssignOp_Pow | Expr_AssignOp_ShiftLeft | Expr_AssignOp_ShiftRight | Expr_BinaryOp_BitwiseAnd | Expr_BinaryOp_BitwiseOr | Expr_BinaryOp_BitwiseXor | Expr_BinaryOp_BooleanAnd | Expr_BinaryOp_BooleanOr | Expr_BinaryOp_Coalesce | Expr_BinaryOp_Concat | Expr_BinaryOp_Div | Expr_BinaryOp_Equal | Expr_BinaryOp_Greater | Expr_BinaryOp_GreaterOrEqual | Expr_BinaryOp_Identical | Expr_BinaryOp_LogicalAnd | Expr_BinaryOp_LogicalOr | Expr_BinaryOp_LogicalXor | Expr_BinaryOp_Minus | Expr_BinaryOp_Mod | Expr_BinaryOp_Mul | Expr_BinaryOp_NotEqual | Expr_BinaryOp_NotIdentical | Expr_BinaryOp_Plus | Expr_BinaryOp_Pow | Expr_BinaryOp_ShiftLeft | Expr_BinaryOp_ShiftRight | Expr_BinaryOp_Smaller | Expr_BinaryOp_SmallerOrEqual | Expr_BinaryOp_Spaceship | Expr_Cast_Array_ | Expr_Cast_Bool_ | Expr_Cast_Double | Expr_Cast_Int_ | Expr_Cast_Object_ | Expr_Cast_String_ | Expr_Cast_Unset_ | Scalar_DNumber | Scalar_Encapsed | Scalar_EncapsedStringPart | Scalar_LNumber | Scalar_MagicConst | Scalar_String_ | Scalar_MagicConst_Class_ | Scalar_MagicConst_Dir | Scalar_MagicConst_File | Scalar_MagicConst_Function_ | Scalar_MagicConst_Line | Scalar_MagicConst_Method | Scalar_MagicConst_Namespace_ | Scalar_MagicConst_Trait_ => Some(Expr)
    case Identifier | VarLikeIdentifier => Some(Identifier)
    case MatchArm => Some(MatchArm)
    case Name | Name_FullyQualified | Name_Relative => Some(Name)
    case Param => Some(Param)
    case Stmt | Stmt_Break_ | Stmt_Case_ | Stmt_Catch_ | Stmt_ClassConst | Stmt_ClassLike | Stmt_ClassMethod | Stmt_Class_ | Stmt_Const_ | Stmt_Continue_ | Stmt_DeclareDeclare | Stmt_Declare_ | Stmt_Do_ | Stmt_Echo_ | Stmt_ElseIf_ | Stmt_Else_ | Stmt_EnumCase | Stmt_Enum_ | Stmt_Expression | Stmt_Finally_ | Stmt_For_ | Stmt_Foreach_ | Stmt_Function_ | Stmt_Global_ | Stmt_Goto_ | Stmt_GroupUse | Stmt_HaltCompiler | Stmt_If_ | Stmt_InlineHTML | Stmt_Interface_ | Stmt_Label | Stmt_Namespace_ | Stmt_Nop | Stmt_Property | Stmt_PropertyProperty | Stmt_Return_ | Stmt_StaticVar | Stmt_Static_ | Stmt_Switch_ | Stmt_Throw_ | Stmt_TraitUse | Stmt_TraitUseAdaptation | Stmt_Trait_ | Stmt_TryCatch | Stmt_Unset_ | Stmt_UseUse | Stmt_Use_ | Stmt_While_ | Stmt_TraitUseAdaptation_Alias | Stmt_TraitUseAdaptation_Precedence => Some(Stmt)
    case VariadicPlaceholder => Some(VariadicPlaceholder)
    case Builder_EnumCase => None
  }

  /** The classes without a parent node class. */
  function Roots(): seq<Cls>
  {
    [Arg, Attribute, AttributeGroup, ComplexType, Const_, Expr, Identifier, MatchArm, Name, Param, Stmt, VariadicPlaceholder]
  }

  /** Root labels map to themselves. */
  lemma RootsAreTheirOwnLabel()
    ensures forall i :: 0 <= i < |Roots()| ==> Label(Roots()[i]) == Some(Roots()[i])
  {
  }

  /** Only the builder class is missing from the table. */
  lemma OnlyBuilderUnlabelled(c: Cls)
    ensures c == Builder_EnumCase <==> Label(c).None?
  {
  }

  /** Every label the table produces is a root. */
  lemma LabelIsRoot(c: Cls)
    ensures Label(c).Some? ==> Label(c).value in Roots()
  {
  }

  /** Every label is a fixed point of the table: a label's own label is itself. */
  lemma LabelsAreFixedPoints(c: Cls)
    requires Label(c).Some?
    ensures Label(Label(c).value) == Label(c)
  {
    LabelIsRoot(c);
    RootsAreTheirOwnLabel();
  }

  /**
   * Every class below a root carries that root: the expressions (the
   * AssignOp, BinaryOp, Cast, Scalar and MagicConst ones included) Expr,
   * the statements (TraitUseAdaptation ones included) Stmt, the names
   * Name, the nullable, union and intersection types ComplexType and
   * VarLikeIdentifier Identifier.
   */
  lemma ExpressionsCarryExpr(c: Cls)
    ensures Expr in Ancestors(c) ==> Label(c) == Some(Expr)
  {
  }

  lemma StatementsCarryStmt(c: Cls)
    ensures Stmt in Ancestors(c) ==> Label(c) == Some(Stmt)
  {
  }

  lemma NamesCarryName(c: Cls)
    ensures Name in Ancestors(c) ==> Label(c) == Some(Name)
  {
    if Name in Ancestors(c) {
      assert c == Name_FullyQualified || c == Name_Relative;
    }
  }

  lemma ComplexTypesCarryComplexType(c: Cls)
    ensures ComplexType in Ancestors(c) ==> Label(c) == Some(ComplexType)
  {
  }

  lemma IdentifiersCarryIdentifier(c: Cls)
    ensures Identifier in Ancestors(c) ==> Label(c) == Some(Identifier)
  {
    if Identifier in Ancestors(c) {
      assert c == VarLikeIdentifier;
    }
  }
}
