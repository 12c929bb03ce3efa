/**
 * The PHP-Parser (4.x) node classes that the registrars name, their fully
 * qualified names and their class hierarchy (the library's own declarations,
 * which this system takes as given).
 */
module PhpClasses {
  /** One case per class; the name is the class path below PhpParser\Node, joined by '_'. */
  datatype Cls =
    | Arg
    | Attribute
    | AttributeGroup
    | ComplexType
    | Const_
    | Expr
    | Identifier
    | IntersectionType
    | MatchArm
    | Name
    | NullableType
    | Param
    | Scalar
    | Stmt
    | UnionType
    | VarLikeIdentifier
    | VariadicPlaceholder
    | Expr_ArrayDimFetch
    | Expr_ArrayItem
    | Expr_Array_
    | Expr_ArrowFunction
    | Expr_Assign
    | Expr_AssignOp
    | Expr_AssignRef
    | Expr_BinaryOp
    | Expr_BitwiseNot
    | Expr_BooleanNot
    | Expr_CallLike
    | Expr_Cast
    | Expr_ClassConstFetch
    | Expr_Clone_
    | Expr_Closure
    | Expr_ClosureUse
    | Expr_ConstFetch
    | Expr_Empty_
    | Expr_Error
    | Expr_ErrorSuppress
    | Expr_Eval_
    | Expr_Exit_
    | Expr_FuncCall
    | Expr_Include_
    | Expr_Instanceof_
    | Expr_Isset_
    | Expr_List_
    | Expr_Match_
    | Expr_MethodCall
    | Expr_New_
    | Expr_NullsafeMethodCall
    | Expr_NullsafePropertyFetch
    | Expr_PostDec
    | Expr_PostInc
    | Expr_PreDec
    | Expr_PreInc
    | Expr_Print_
    | Expr_PropertyFetch
    | Expr_ShellExec
    | Expr_StaticCall
    | Expr_StaticPropertyFetch
    | Expr_Ternary
    | Expr_Throw_
    | Expr_UnaryMinus
    | Expr_UnaryPlus
    | Expr_Variable
    | Expr_YieldFrom
    | Expr_Yield_
    | Expr_AssignOp_BitwiseAnd
    | Expr_AssignOp_BitwiseOr
    | Expr_AssignOp_BitwiseXor
    | Expr_AssignOp_Coalesce
    | Expr_AssignOp_Concat
    | Expr_AssignOp_Div
    | Expr_AssignOp_Minus
    | Expr_AssignOp_Mod
    | Expr_AssignOp_Mul
    | Expr_AssignOp_Plus
    | Expr_AssignOp_Pow
    | Expr_AssignOp_ShiftLeft
    | Expr_AssignOp_ShiftRight
    | Expr_BinaryOp_BitwiseAnd
    | Expr_BinaryOp_BitwiseOr
    | Expr_BinaryOp_BitwiseXor
    | Expr_BinaryOp_BooleanAnd
    | Expr_BinaryOp_BooleanOr
    | Expr_BinaryOp_Coalesce
    | Expr_BinaryOp_Concat
    | Expr_BinaryOp_Div
    | Expr_BinaryOp_Equal
    | Expr_BinaryOp_Greater
    | Expr_BinaryOp_GreaterOrEqual
    | Expr_BinaryOp_Identical
    | Expr_BinaryOp_LogicalAnd
    | Expr_BinaryOp_LogicalOr
    | Expr_BinaryOp_LogicalXor
    | Expr_BinaryOp_Minus
    | Expr_BinaryOp_Mod
    | Expr_BinaryOp_Mul
    | Expr_BinaryOp_NotEqual
    | Expr_BinaryOp_NotIdentical
    | Expr_BinaryOp_Plus
    | Expr_BinaryOp_Pow
    | Expr_BinaryOp_ShiftLeft
    | Expr_BinaryOp_ShiftRight
    | Expr_BinaryOp_Smaller
    | Expr_BinaryOp_SmallerOrEqual
    | Expr_BinaryOp_Spaceship
    | Expr_Cast_Array_
    | Expr_Cast_Bool_
    | Expr_Cast_Double
    | Expr_Cast_Int_
    | Expr_Cast_Object_
    | Expr_Cast_String_
    | Expr_Cast_Unset_
    | Name_FullyQualified
    | Name_Relative
    | Scalar_DNumber
    | Scalar_Encapsed
    | Scalar_EncapsedStringPart
    | Scalar_LNumber
    | Scalar_MagicConst
    | Scalar_String_
    | Scalar_MagicConst_Class_
    | Scalar_MagicConst_Dir
    | Scalar_MagicConst_File
    | Scalar_MagicConst_Function_
    | Scalar_MagicConst_Line
    | Scalar_MagicConst_Method
    | Scalar_MagicConst_Namespace_
    | Scalar_MagicConst_Trait_
    | Stmt_Break_
    | Stmt_Case_
    | Stmt_Catch_
    | Stmt_ClassConst
    | Stmt_ClassLike
    | Stmt_ClassMethod
    | Stmt_Class_
    | Stmt_Const_
    | Stmt_Continue_
    | Stmt_DeclareDeclare
    | Stmt_Declare_
    | Stmt_Do_
    | Stmt_Echo_
    | Stmt_ElseIf_
    | Stmt_Else_
    | Stmt_EnumCase
    | Stmt_Enum_
    | Stmt_Expression
    | Stmt_Finally_
    | Stmt_For_
    | Stmt_Foreach_
    | Stmt_Function_
    | Stmt_Global_
    | Stmt_Goto_
    | Stmt_GroupUse
    | Stmt_HaltCompiler
    | Stmt_If_
    | Stmt_InlineHTML
    | Stmt_Interface_
    | Stmt_Label
    | Stmt_Namespace_
    | Stmt_Nop
    | Stmt_Property
    | Stmt_PropertyProperty
    | Stmt_Return_
    | Stmt_StaticVar
    | Stmt_Static_
    | Stmt_Switch_
    | Stmt_Throw_
    | Stmt_TraitUse
    | Stmt_TraitUseAdaptation
    | Stmt_Trait_
    | Stmt_TryCatch
    | Stmt_Unset_
    | Stmt_UseUse
    | Stmt_Use_
    | Stmt_While_
    | Stmt_TraitUseAdaptation_Alias
    | Stmt_TraitUseAdaptation_Precedence
    | Builder_EnumCase

  /** get_class: the fully qualified class name. */
  function ClassName(c: Cls): string
  {
    match c
    case Arg => "PhpParser\\Node\\Arg"
    case Attribute => "PhpParser\\Node\\Attribute"
    case AttributeGroup => "PhpParser\\Node\\AttributeGroup"
    case ComplexType => "PhpParser\\Node\\ComplexType"
    case Const_ => "PhpParser\\Node\\Const_"
    case Expr => "PhpParser\\Node\\Expr"
    case Identifier => "PhpParser\\Node\\Identifier"
    case IntersectionType => "PhpParser\\Node\\IntersectionType"
    case MatchArm => "PhpParser\\Node\\MatchArm"
    case Name => "PhpParser\\Node\\Name"
    case NullableType => "PhpParser\\Node\\NullableType"
    case Param => "PhpParser\\Node\\Param"
    case Scalar => "PhpParser\\Node\\Scalar"
    case Stmt => "PhpParser\\Node\\Stmt"
    case UnionType => "PhpParser\\Node\\UnionType"
    case VarLikeIdentifier => "PhpParser\\Node\\VarLikeIdentifier"
    case VariadicPlaceholder => "PhpParser\\Node\\VariadicPlaceholder"
    case Expr_ArrayDimFetch => "PhpParser\\Node\\Expr\\ArrayDimFetch"
    case Expr_ArrayItem => "PhpParser\\Node\\Expr\\ArrayItem"
    case Expr_Array_ => "PhpParser\\Node\\Expr\\Array_"
    case Expr_ArrowFunction => "PhpParser\\Node\\Expr\\ArrowFunction"
    case Expr_Assign => "PhpParser\\Node\\Expr\\Assign"
    case Expr_AssignOp => "PhpParser\\Node\\Expr\\AssignOp"
    case Expr_AssignRef => "PhpParser\\Node\\Expr\\AssignRef"
    case Expr_BinaryOp => "PhpParser\\Node\\Expr\\BinaryOp"
    case Expr_BitwiseNot => "PhpParser\\Node\\Expr\\BitwiseNot"
    case Expr_BooleanNot => "PhpParser\\Node\\Expr\\BooleanNot"
    case Expr_CallLike => "PhpParser\\Node\\Expr\\CallLike"
    case Expr_Cast => "PhpParser\\Node\\Expr\\Cast"
    case Expr_ClassConstFetch => "PhpParser\\Node\\Expr\\ClassConstFetch"
    case Expr_Clone_ => "PhpParser\\Node\\Expr\\Clone_"
    case Expr_Closure => "PhpParser\\Node\\Expr\\Closure"
    case Expr_ClosureUse => "PhpParser\\Node\\Expr\\ClosureUse"
    case Expr_ConstFetch => "PhpParser\\Node\\Expr\\ConstFetch"
    case Expr_Empty_ => "PhpParser\\Node\\Expr\\Empty_"
    case Expr_Error => "PhpParser\\Node\\Expr\\Error"
    case Expr_ErrorSuppress => "PhpParser\\Node\\Expr\\ErrorSuppress"
    case Expr_Eval_ => "PhpParser\\Node\\Expr\\Eval_"
    case Expr_Exit_ => "PhpParser\\Node\\Expr\\Exit_"
    case Expr_FuncCall => "PhpParser\\Node\\Expr\\FuncCall"
    case Expr_Include_ => "PhpParser\\Node\\Expr\\Include_"
    case Expr_Instanceof_ => "PhpParser\\Node\\Expr\\Instanceof_"
    case Expr_Isset_ => "PhpParser\\Node\\Expr\\Isset_"
    case Expr_List_ => "PhpParser\\Node\\Expr\\List_"
    case Expr_Match_ => "PhpParser\\Node\\Expr\\Match_"
    case Expr_MethodCall => "PhpParser\\Node\\Expr\\MethodCall"
    case Expr_New_ => "PhpParser\\Node\\Expr\\New_"
    case Expr_NullsafeMethodCall => "PhpParser\\Node\\Expr\\NullsafeMethodCall"
    case Expr_NullsafePropertyFetch => "PhpParser\\Node\\Expr\\NullsafePropertyFetch"
    case Expr_PostDec => "PhpParser\\Node\\Expr\\PostDec"
    case Expr_PostInc => "PhpParser\\Node\\Expr\\PostInc"
    case Expr_PreDec => "PhpParser\\Node\\Expr\\PreDec"
    case Expr_PreInc => "PhpParser\\Node\\Expr\\PreInc"
    case Expr_Print_ => "PhpParser\\Node\\Expr\\Print_"
    case Expr_PropertyFetch => "PhpParser\\Node\\Expr\\PropertyFetch"
    case Expr_ShellExec => "PhpParser\\Node\\Expr\\ShellExec"
    case Expr_StaticCall => "PhpParser\\Node\\Expr\\StaticCall"
    case Expr_StaticPropertyFetch => "PhpParser\\Node\\Expr\\StaticPropertyFetch"
    case Expr_Ternary => "PhpParser\\Node\\Expr\\Ternary"
    case Expr_Throw_ => "PhpParser\\Node\\Expr\\Throw_"
    case Expr_UnaryMinus => "PhpParser\\Node\\Expr\\UnaryMinus"
    case Expr_UnaryPlus => "PhpParser\\Node\\Expr\\UnaryPlus"
    case Expr_Variable => "PhpParser\\Node\\Expr\\Variable"
    case Expr_YieldFrom => "PhpParser\\Node\\Expr\\YieldFrom"
    case Expr_Yield_ => "PhpParser\\Node\\Expr\\Yield_"
    case Expr_AssignOp_BitwiseAnd => "PhpParser\\Node\\Expr\\AssignOp\\BitwiseAnd"
    case Expr_AssignOp_BitwiseOr => "PhpParser\\Node\\Expr\\AssignOp\\BitwiseOr"
    case Expr_AssignOp_BitwiseXor => "PhpParser\\Node\\Expr\\AssignOp\\BitwiseXor"
    case Expr_AssignOp_Coalesce => "PhpParser\\Node\\Expr\\AssignOp\\Coalesce"
    case Expr_AssignOp_Concat => "PhpParser\\Node\\Expr\\AssignOp\\Concat"
    case Expr_AssignOp_Div => "PhpParser\\Node\\Expr\\AssignOp\\Div"
    case Expr_AssignOp_Minus => "PhpParser\\Node\\Expr\\AssignOp\\Minus"
    case Expr_AssignOp_Mod => "PhpParser\\Node\\Expr\\AssignOp\\Mod"
    case Expr_AssignOp_Mul => "PhpParser\\Node\\Expr\\AssignOp\\Mul"
    case Expr_AssignOp_Plus => "PhpParser\\Node\\Expr\\AssignOp\\Plus"
    case Expr_AssignOp_Pow => "PhpParser\\Node\\Expr\\AssignOp\\Pow"
    case Expr_AssignOp_ShiftLeft => "PhpParser\\Node\\Expr\\AssignOp\\ShiftLeft"
    case Expr_AssignOp_ShiftRight => "PhpParser\\Node\\Expr\\AssignOp\\ShiftRight"
    case Expr_BinaryOp_BitwiseAnd => "PhpParser\\Node\\Expr\\BinaryOp\\BitwiseAnd"
    case Expr_BinaryOp_BitwiseOr => "PhpParser\\Node\\Expr\\BinaryOp\\BitwiseOr"
    case Expr_BinaryOp_BitwiseXor => "PhpParser\\Node\\Expr\\BinaryOp\\BitwiseXor"
    case Expr_BinaryOp_BooleanAnd => "PhpParser\\Node\\Expr\\BinaryOp\\BooleanAnd"
    case Expr_BinaryOp_BooleanOr => "PhpParser\\Node\\Expr\\BinaryOp\\BooleanOr"
    case Expr_BinaryOp_Coalesce => "PhpParser\\Node\\Expr\\BinaryOp\\Coalesce"
    case Expr_BinaryOp_Concat => "PhpParser\\Node\\Expr\\BinaryOp\\Concat"
    case Expr_BinaryOp_Div => "PhpParser\\Node\\Expr\\BinaryOp\\Div"
    case Expr_BinaryOp_Equal => "PhpParser\\Node\\Expr\\BinaryOp\\Equal"
    case Expr_BinaryOp_Greater => "PhpParser\\Node\\Expr\\BinaryOp\\Greater"
    case Expr_BinaryOp_GreaterOrEqual => "PhpParser\\Node\\Expr\\BinaryOp\\GreaterOrEqual"
    case Expr_BinaryOp_Identical => "PhpParser\\Node\\Expr\\BinaryOp\\Identical"
    case Expr_BinaryOp_LogicalAnd => "PhpParser\\Node\\Expr\\BinaryOp\\LogicalAnd"
    case Expr_BinaryOp_LogicalOr => "PhpParser\\Node\\Expr\\BinaryOp\\LogicalOr"
    case Expr_BinaryOp_LogicalXor => "PhpParser\\Node\\Expr\\BinaryOp\\LogicalXor"
    case Expr_BinaryOp_Minus => "PhpParser\\Node\\Expr\\BinaryOp\\Minus"
    case Expr_BinaryOp_Mod => "PhpParser\\Node\\Expr\\BinaryOp\\Mod"
    case Expr_BinaryOp_Mul => "PhpParser\\Node\\Expr\\BinaryOp\\Mul"
    case Expr_BinaryOp_NotEqual => "PhpParser\\Node\\Expr\\BinaryOp\\NotEqual"
    case Expr_BinaryOp_NotIdentical => "PhpParser\\Node\\Expr\\BinaryOp\\NotIdentical"
    case Expr_BinaryOp_Plus => "PhpParser\\Node\\Expr\\BinaryOp\\Plus"
    case Expr_BinaryOp_Pow => "PhpParser\\Node\\Expr\\BinaryOp\\Pow"
    case Expr_BinaryOp_ShiftLeft => "PhpParser\\Node\\Expr\\BinaryOp\\ShiftLeft"
    case Expr_BinaryOp_ShiftRight => "PhpParser\\Node\\Expr\\BinaryOp\\ShiftRight"
    case Expr_BinaryOp_Smaller => "PhpParser\\Node\\Expr\\BinaryOp\\Smaller"
    case Expr_BinaryOp_SmallerOrEqual => "PhpParser\\Node\\Expr\\BinaryOp\\SmallerOrEqual"
    case Expr_BinaryOp_Spaceship => "PhpParser\\Node\\Expr\\BinaryOp\\Spaceship"
    case Expr_Cast_Array_ => "PhpParser\\Node\\Expr\\Cast\\Array_"
    case Expr_Cast_Bool_ => "PhpParser\\Node\\Expr\\Cast\\Bool_"
    case Expr_Cast_Double => "PhpParser\\Node\\Expr\\Cast\\Double"
    case Expr_Cast_Int_ => "PhpParser\\Node\\Expr\\Cast\\Int_"
    case Expr_Cast_Object_ => "PhpParser\\Node\\Expr\\Cast\\Object_"
    case Expr_Cast_String_ => "PhpParser\\Node\\Expr\\Cast\\String_"
    case Expr_Cast_Unset_ => "PhpParser\\Node\\Expr\\Cast\\Unset_"
    case Name_FullyQualified => "PhpParser\\Node\\Name\\FullyQualified"
    case Name_Relative => "PhpParser\\Node\\Name\\Relative"
    case Scalar_DNumber => "PhpParser\\Node\\Scalar\\DNumber"
    case Scalar_Encapsed => "PhpParser\\Node\\Scalar\\Encapsed"
    case Scalar_EncapsedStringPart => "PhpParser\\Node\\Scalar\\EncapsedStringPart"
    case Scalar_LNumber => "PhpParser\\Node\\Scalar\\LNumber"
    case Scalar_MagicConst => "PhpParser\\Node\\Scalar\\MagicConst"
    case Scalar_String_ => "PhpParser\\Node\\Scalar\\String_"
    case Scalar_MagicConst_Class_ => "PhpParser\\Node\\Scalar\\MagicConst\\Class_"
    case Scalar_MagicConst_Dir => "PhpParser\\Node\\Scalar\\MagicConst\\Dir"
    case Scalar_MagicConst_File => "PhpParser\\Node\\Scalar\\MagicConst\\File"
    case Scalar_MagicConst_Function_ => "PhpParser\\Node\\Scalar\\MagicConst\\Function_"
    case Scalar_MagicConst_Line => "PhpParser\\Node\\Scalar\\MagicConst\\Line"
    case Scalar_MagicConst_Method => "PhpParser\\Node\\Scalar\\MagicConst\\Method"
    case Scalar_MagicConst_Namespace_ => "PhpParser\\Node\\Scalar\\MagicConst\\Namespace_"
    case Scalar_MagicConst_Trait_ => "PhpParser\\Node\\Scalar\\MagicConst\\Trait_"
    case Stmt_Break_ => "PhpParser\\Node\\Stmt\\Break_"
    case Stmt_Case_ => "PhpParser\\Node\\Stmt\\Case_"
    case Stmt_Catch_ => "PhpParser\\Node\\Stmt\\Catch_"
    case Stmt_ClassConst => "PhpParser\\Node\\Stmt\\ClassConst"
    case Stmt_ClassLike => "PhpParser\\Node\\Stmt\\ClassLike"
    case Stmt_ClassMethod => "PhpParser\\Node\\Stmt\\ClassMethod"
    case Stmt_Class_ => "PhpParser\\Node\\Stmt\\Class_"
    case Stmt_Const_ => "PhpParser\\Node\\Stmt\\Const_"
    case Stmt_Continue_ => "PhpParser\\Node\\Stmt\\Continue_"
    case Stmt_DeclareDeclare => "PhpParser\\Node\\Stmt\\DeclareDeclare"
    case Stmt_Declare_ => "PhpParser\\Node\\Stmt\\Declare_"
    case Stmt_Do_ => "PhpParser\\Node\\Stmt\\Do_"
    case Stmt_Echo_ => "PhpParser\\Node\\Stmt\\Echo_"
    case Stmt_ElseIf_ => "PhpParser\\Node\\Stmt\\ElseIf_"
    case Stmt_Else_ => "PhpParser\\Node\\Stmt\\Else_"
    case Stmt_EnumCase => "PhpParser\\Node\\Stmt\\EnumCase"
    case Stmt_Enum_ => "PhpParser\\Node\\Stmt\\Enum_"
    case Stmt_Expression => "PhpParser\\Node\\Stmt\\Expression"
    case Stmt_Finally_ => "PhpParser\\Node\\Stmt\\Finally_"
    case Stmt_For_ => "PhpParser\\Node\\Stmt\\For_"
    case Stmt_Foreach_ => "PhpParser\\Node\\Stmt\\Foreach_"
    case Stmt_Function_ => "PhpParser\\Node\\Stmt\\Function_"
    case Stmt_Global_ => "PhpParser\\Node\\Stmt\\Global_"
    case Stmt_Goto_ => "PhpParser\\Node\\Stmt\\Goto_"
    case Stmt_GroupUse => "PhpParser\\Node\\Stmt\\GroupUse"
    case Stmt_HaltCompiler => "PhpParser\\Node\\Stmt\\HaltCompiler"
    case Stmt_If_ => "PhpParser\\Node\\Stmt\\If_"
    case Stmt_InlineHTML => "PhpParser\\Node\\Stmt\\InlineHTML"
    case Stmt_Interface_ => "PhpParser\\Node\\Stmt\\Interface_"
    case Stmt_Label => "PhpParser\\Node\\Stmt\\Label"
    case Stmt_Namespace_ => "PhpParser\\Node\\Stmt\\Namespace_"
    case Stmt_Nop => "PhpParser\\Node\\Stmt\\Nop"
    case Stmt_Property => "PhpParser\\Node\\Stmt\\Property"
    case Stmt_PropertyProperty => "PhpParser\\Node\\Stmt\\PropertyProperty"
    case Stmt_Return_ => "PhpParser\\Node\\Stmt\\Return_"
    case Stmt_StaticVar => "PhpParser\\Node\\Stmt\\StaticVar"
    case Stmt_Static_ => "PhpParser\\Node\\Stmt\\Static_"
    case Stmt_Switch_ => "PhpParser\\Node\\Stmt\\Switch_"
    case Stmt_Throw_ => "PhpParser\\Node\\Stmt\\Throw_"
    case Stmt_TraitUse => "PhpParser\\Node\\Stmt\\TraitUse"
    case Stmt_TraitUseAdaptation => "PhpParser\\Node\\Stmt\\TraitUseAdaptation"
    case Stmt_Trait_ => "PhpParser\\Node\\Stmt\\Trait_"
    case Stmt_TryCatch => "PhpParser\\Node\\Stmt\\TryCatch"
    case Stmt_Unset_ => "PhpParser\\Node\\Stmt\\Unset_"
    case Stmt_UseUse => "PhpParser\\Node\\Stmt\\UseUse"
    case Stmt_Use_ => "PhpParser\\Node\\Stmt\\Use_"
    case Stmt_While_ => "PhpParser\\Node\\Stmt\\While_"
    case Stmt_TraitUseAdaptation_Alias => "PhpParser\\Node\\Stmt\\TraitUseAdaptation\\Alias"
    case Stmt_TraitUseAdaptation_Precedence => "PhpParser\\Node\\Stmt\\TraitUseAdaptation\\Precedence"
    case Builder_EnumCase => "PhpParser\\Builder\\EnumCase"
  }

  /** The strict ancestors of a class among these classes, nearest first. */
  function Ancestors(c: Cls): seq<Cls>
  {
    match c
    case Arg | Attribute | AttributeGroup | ComplexType | Const_ | Expr | Identifier | MatchArm | Name | Param | Stmt | VariadicPlaceholder | Builder_EnumCase => []
    case IntersectionType | NullableType | UnionType => [ComplexType]
    case Scalar | Expr_ArrayDimFetch | Expr_ArrayItem | Expr_Array_ | Expr_ArrowFunction | Expr_Assign | Expr_AssignOp | Expr_AssignRef | Expr_BinaryOp | Expr_BitwiseNot | Expr_BooleanNot | Expr_CallLike | Expr_Cast | Expr_ClassConstFetch | Expr_Clone_ | Expr_Closure | Expr_ClosureUse | Expr_ConstFetch | Expr_Empty_ | Expr_Error | Expr_ErrorSuppress | Expr_Eval_ | Expr_Exit_ | Expr_Include_ | Expr_Instanceof_ | Expr_Isset_ | Expr_List_ | Expr_Match_ | Expr_NullsafePropertyFetch | Expr_PostDec | Expr_PostInc | Expr_PreDec | Expr_PreInc | Expr_Print_ | Expr_PropertyFetch | Expr_ShellExec | Expr_StaticPropertyFetch | Expr_Ternary | Expr_Throw_ | Expr_UnaryMinus | Expr_UnaryPlus | Expr_Variable | Expr_YieldFrom | Expr_Yield_ => [Expr]
    case VarLikeIdentifier => [Identifier]
    case Expr_FuncCall | Expr_MethodCall | Expr_New_ | Expr_NullsafeMethodCall | Expr_StaticCall => [Expr_CallLike, Expr]
    case Expr_AssignOp_BitwiseAnd | Expr_AssignOp_BitwiseOr | Expr_AssignOp_BitwiseXor | Expr_AssignOp_Coalesce | Expr_AssignOp_Concat | Expr_AssignOp_Div | Expr_AssignOp_Minus | Expr_AssignOp_Mod | Expr_AssignOp_Mul | Expr_AssignOp_Plus | Expr_AssignOp_Pow | Expr_AssignOp_ShiftLeft | Expr_AssignOp_ShiftRight => [Expr_AssignOp, Expr]
    case Expr_BinaryOp_BitwiseAnd | Expr_BinaryOp_BitwiseOr | Expr_BinaryOp_BitwiseXor | Expr_BinaryOp_BooleanAnd | Expr_BinaryOp_BooleanOr | Expr_BinaryOp_Coalesce | Expr_BinaryOp_Concat | Expr_BinaryOp_Div | Expr_BinaryOp_Equal | Expr_BinaryOp_Greater | Expr_BinaryOp_GreaterOrEqual | Expr_BinaryOp_Identical | Expr_BinaryOp_LogicalAnd | Expr_BinaryOp_LogicalOr | Expr_BinaryOp_LogicalXor | Expr_BinaryOp_Minus | Expr_BinaryOp_Mod | Expr_BinaryOp_Mul | Expr_BinaryOp_NotEqual | Expr_BinaryOp_NotIdentical | Expr_BinaryOp_Plus | Expr_BinaryOp_Pow | Expr_BinaryOp_ShiftLeft | Expr_BinaryOp_ShiftRight | Expr_BinaryOp_Smaller | Expr_BinaryOp_SmallerOrEqual | Expr_BinaryOp_Spaceship => [Expr_BinaryOp, Expr]
    case Expr_Cast_Array_ | Expr_Cast_Bool_ | Expr_Cast_Double | Expr_Cast_Int_ | Expr_Cast_Object_ | Expr_Cast_String_ | Expr_Cast_Unset_ => [Expr_Cast, Expr]
    case Name_FullyQualified | Name_Relative => [Name]
    case Scalar_DNumber | Scalar_Encapsed | Scalar_EncapsedStringPart | Scalar_LNumber | Scalar_MagicConst | Scalar_String_ => [Scalar, Expr]
    case Scalar_MagicConst_Class_ | Scalar_MagicConst_Dir | Scalar_MagicConst_File | Scalar_MagicConst_Function_ | Scalar_MagicConst_Line | Scalar_MagicConst_Method | Scalar_MagicConst_Namespace_ | Scalar_MagicConst_Trait_ => [Scalar_MagicConst, Scalar, Expr]
    case Stmt_Break_ | Stmt_Case_ | Stmt_Catch_ | Stmt_ClassConst | Stmt_ClassLike | Stmt_ClassMethod | Stmt_Const_ | Stmt_Continue_ | Stmt_DeclareDeclare | Stmt_Declare_ | Stmt_Do_ | Stmt_Echo_ | Stmt_ElseIf_ | Stmt_Else_ | Stmt_EnumCase | Stmt_Expression | Stmt_Finally_ | Stmt_For_ | Stmt_Foreach_ | Stmt_Function_ | Stmt_Global_ | Stmt_Goto_ | Stmt_GroupUse | Stmt_HaltCompiler | Stmt_If_ | Stmt_InlineHTML | Stmt_Label | Stmt_Namespace_ | Stmt_Nop | Stmt_Property | Stmt_PropertyProperty | Stmt_Return_ | Stmt_StaticVar | Stmt_Static_ | Stmt_Switch_ | Stmt_Throw_ | Stmt_TraitUse | Stmt_TraitUseAdaptation | Stmt_TryCatch | Stmt_Unset_ | Stmt_UseUse | Stmt_Use_ | Stmt_While_ => [Stmt]
    case Stmt_Class_ | Stmt_Enum_ | Stmt_Interface_ | Stmt_Trait_ => [Stmt_ClassLike, Stmt]
    case Stmt_TraitUseAdaptation_Alias | Stmt_TraitUseAdaptation_Precedence => [Stmt_TraitUseAdaptation, Stmt]
  }

  /** `instanceof`: the class itself or one of its ancestors. */
  predicate IsA(c: Cls, d: Cls)
  {
    c == d || d in Ancestors(c)
  }

  /** A class declaration (what an anonymous `new class` holds) is not an expression. */
  lemma ClassesAreNotExpressions(c: Cls)
    ensures IsA(c, Stmt_Class_) ==> c == Stmt_Class_ && !IsA(c, Expr)
  {
    ClassIsALeaf(c);
  }

  /** No node class extends Class_. */
  lemma ClassIsALeaf(c: Cls)
    ensures Stmt_Class_ !in Ancestors(c)
  {
  }
}
