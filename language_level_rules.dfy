/**
 * The language-level inspectors of LanguageLevelInformationRegistrar: each
 * looks at one node (its own properties, attributes and immediate children)
 * and answers the level a feature it uses needs, or null. An enum case used
 * as an inspector answers itself.
 */
module LanguageLevelRules {
  import opened Wrappers
  import opened PhpClasses
  import opened PhpValues
  import opened LanguageLevel
  import Quirks

  /**
   * Quirks::isSemiReservedKeyword. The rules call it but the system does not
   * define it, so it is a parameter of every rule that consults it.
   */
  type KeywordTest = string -> bool

  /** Array_::KIND_SHORT. */
  const ARRAY_KIND_SHORT: int := 2
  /** LNumber::KIND_BIN, KIND_OCT and KIND_DEC. */
  const KIND_BIN: int := 2
  const KIND_OCT: int := 8
  const KIND_DEC: int := 10
  /** Class_::MODIFIER_FINAL and MODIFIER_READONLY. */
  const MODIFIER_FINAL: int := 32
  const MODIFIER_READONLY: int := 64
  /** Use_::TYPE_FUNCTION. */
  const TYPE_FUNCTION: int := 2

  /**
   * A LanguageLevelInspector: `inspect($node)`, which answers a level or
   * null, or fails.
   */
  type Inspector = (Node, KeywordTest) -> Result<Option<Level>>

  // ---------------------------------------------------------------- shared pieces

  /** `!empty($node->name)`. */
  predicate Present(n: Node, name: string)
  {
    !Falsy(Prop(n, name))
  }

  /**
   * The `match (true)` that names a type: toString() of an Identifier or Name,
   * '' for a ComplexType, and UnhandledMatchError for anything else.
   */
  function TypeName(t: Value): (r: Result<string>)
    ensures (InstanceOf(t, Identifier) || InstanceOf(t, Name)) ==> r == CallToString(t)
    ensures !InstanceOf(t, Identifier) && !InstanceOf(t, Name) && InstanceOf(t, ComplexType) ==> r == Ok("")
    ensures !InstanceOf(t, Identifier) && !InstanceOf(t, Name) && !InstanceOf(t, ComplexType) ==>
      r == Err(UnhandledMatchError)
  {
    if InstanceOf(t, Identifier) || InstanceOf(t, Name) then CallToString(t)
    else if InstanceOf(t, ComplexType) then Ok("")
    else Err(UnhandledMatchError)
  }

  /** The level a declared return type needs. */
  function ReturnTypeLevel(t: string): (l: Level)
    ensures l == PHP8_1 <==> t == "noreturn"
    ensures l == PHP7_2 <==> t == "object"
    ensures l == PHP7_1 <==> t == "void" || t == "iterable"
    ensures l == PHP7_0 <==> t != "noreturn" && t != "object" && t != "void" && t != "iterable"
  {
    if t == "noreturn" then PHP8_1
    else if t == "object" then PHP7_2
    else if t == "void" || t == "iterable" then PHP7_1
    else PHP7_0
  }

  /** The return-type rule shared by ClassMethod and Function_; None when there is no return type. */
  function ReturnTypeRule(n: Node): (r: Result<Option<Level>>)
    ensures !Present(n, "returnType") ==> r == Ok(None)
    ensures Present(n, "returnType") ==>
      (r.Ok? <==> TypeName(Prop(n, "returnType")).Ok?) &&
      (r.Ok? ==> r.value == Some(ReturnTypeLevel(TypeName(Prop(n, "returnType")).value)))
  {
    if !Present(n, "returnType") then Ok(None)
    else
      var t := TypeName(Prop(n, "returnType"));
      if t.Err? then Err(t.error) else Ok(Some(ReturnTypeLevel(t.value)))
  }

  // ---------------------------------------------------------------- Expr rules

  /** ArrayDimFetch: dereferencing a call result needs 5.4, an array or string literal 5.5. */
  function ArrayDimFetchLevel(n: Node): (r: Option<Level>)
    ensures InstanceOf(Prop(n, "var"), Expr_CallLike) ==> r == Some(PHP5_4)
    ensures !InstanceOf(Prop(n, "var"), Expr_CallLike) ==>
      (r == Some(PHP5_5) <==> InstanceOf(Prop(n, "var"), Expr_Array_) || InstanceOf(Prop(n, "var"), Scalar_String_))
    ensures r == None || r == Some(PHP5_4) || r == Some(PHP5_5)
  {
    var v := Prop(n, "var");
    if InstanceOf(v, Expr_CallLike) then Some(PHP5_4)
    else if InstanceOf(v, Expr_Array_) || InstanceOf(v, Scalar_String_) then Some(PHP5_5)
    else None
  }

  /** Array_: the short `[...]` syntax needs 5.4. */
  function ArrayLevel(n: Node): (r: Option<Level>)
    ensures r == Some(PHP5_4) <==> GetAttribute(n, "kind") == Int(ARRAY_KIND_SHORT)
    ensures r != Some(PHP5_4) ==> r == None
  {
    if GetAttribute(n, "kind") == Int(ARRAY_KIND_SHORT) then Some(PHP5_4) else None
  }

  /** Assign: assigning to a short-list `[...]` needs 7.1. */
  function AssignLevel(n: Node): (r: Option<Level>)
    ensures r == Some(PHP7_1) <==> InstanceOf(Prop(n, "var"), Expr_Array_)
    ensures r != Some(PHP7_1) ==> r == None
  {
    if InstanceOf(Prop(n, "var"), Expr_Array_) then Some(PHP7_1) else None
  }

  /** ClassConstFetch: `X::class` needs 5.5. */
  function ClassConstFetchLevel(n: Node): (r: Option<Level>)
    ensures r == Some(PHP5_5) <==>
      InstanceOf(Prop(n, "name"), Identifier) && IsString(Prop(Prop(n, "name").node, "name"), "class")
    ensures r != Some(PHP5_5) ==> r == None
  {
    var name := Prop(n, "name");
    if InstanceOf(name, Identifier) && IsString(Prop(name.node, "name"), "class") then Some(PHP5_5) else None
  }

  /** The classes whose nodes have getParams(). */
  predicate FunctionLike(v: Value)
  {
    InstanceOf(v, Expr_Closure) || InstanceOf(v, Expr_ArrowFunction) ||
    InstanceOf(v, Stmt_ClassMethod) || InstanceOf(v, Stmt_Function_)
  }

  /**
   * ClosureUse (to): a use of a superglobal or of one of the closure's own
   * parameters was allowed up to 7.0. The parent comes from the 'parent'
   * attribute; calling getParams() on anything but a function-like node is an Error.
   */
  function ClosureUseLevel(n: Node): Result<Option<Level>>
  {
    var v := PropOf(Prop(n, "var"), "name");
    if !v.Str? then Ok(None)
    else if Quirks.IsSuperGlobal(v.s) then Ok(Some(PHP7_0))
    else
      var parent := GetAttribute(n, "parent");
      if !FunctionLike(parent) then Err(PhpError)
      else
        var names := Quirks.GetParameterVariableNames(Prop(parent.node, "params"));
        if names.Err? then Err(names.error)
        else if v.s in names.value then Ok(Some(PHP7_0))
        else Ok(None)
  }

  /** The closure-use rule: null for a non-string name; 7.0 for a superglobal; never another level. */
  lemma ClosureUseCases(n: Node)
    ensures !PropOf(Prop(n, "var"), "name").Str? ==> ClosureUseLevel(n) == Ok(None)
    ensures PropOf(Prop(n, "var"), "name").Str? && Quirks.IsSuperGlobal(PropOf(Prop(n, "var"), "name").s) ==>
      ClosureUseLevel(n) == Ok(Some(PHP7_0))
    ensures ClosureUseLevel(n).Ok? && ClosureUseLevel(n).value.Some? ==>
      ClosureUseLevel(n).value == Some(PHP7_0)
  {
  }

  /** 7.0 is given only to a superglobal or to one of the parent's own parameters. */
  lemma ClosureUseNeedsParameter(n: Node)
    ensures ClosureUseLevel(n) == Ok(Some(PHP7_0)) ==>
      var name := PropOf(Prop(n, "var"), "name").s;
      Quirks.IsSuperGlobal(name) ||
      exists p :: p in Prop(GetAttribute(n, "parent").node, "params").items &&
        Quirks.ParameterName(p) == Ok(name)
  {
    var v := PropOf(Prop(n, "var"), "name");
    if ClosureUseLevel(n) == Ok(Some(PHP7_0)) && v.Str? && !Quirks.IsSuperGlobal(v.s) {
      var params := Prop(GetAttribute(n, "parent").node, "params");
      var names := Quirks.GetParameterVariableNames(params);
      assert names.Ok? && v.s in names.value;
      var i :| 0 <= i < |names.value| && names.value[i] == v.s;
      assert params.Arr? && names.value == Quirks.ParameterNames(params.items).value;
      assert Quirks.ParameterName(params.items[i]) == Ok(v.s);
      assert params.items[i] in params.items;
    }
  }

  /**
   * The converse: a string name among the names of the parent's parameters
   * gives 7.0, once getParams() of a function-like parent can be read.
   */
  lemma ClosureUseOfParameter(n: Node)
    ensures var name := PropOf(Prop(n, "var"), "name");
      var parent := GetAttribute(n, "parent");
      name.Str? && FunctionLike(parent) &&
      Quirks.GetParameterVariableNames(Prop(parent.node, "params")).Ok? &&
      (exists p :: p in Prop(parent.node, "params").items && Quirks.ParameterName(p) == Ok(name.s)) ==>
        ClosureUseLevel(n) == Ok(Some(PHP7_0))
  {
    var name := PropOf(Prop(n, "var"), "name");
    var parent := GetAttribute(n, "parent");
    if name.Str? && FunctionLike(parent) && Quirks.GetParameterVariableNames(Prop(parent.node, "params")).Ok? {
      var params := Prop(parent.node, "params");
      if p :| p in params.items && Quirks.ParameterName(p) == Ok(name.s) {
        var i :| 0 <= i < |params.items| && params.items[i] == p;
        var names := Quirks.GetParameterVariableNames(params).value;
        assert names[i] == name.s;
      }
    }
  }

  /**
   * The error paths: a string name that is no superglobal makes the rule
   * call getParams() on the parent, an Error when the parent is not
   * function-like; a failing getParameterVariableNames passes through.
   */
  lemma ClosureUseFailures(n: Node)
    ensures var name := PropOf(Prop(n, "var"), "name");
      name.Str? && !Quirks.IsSuperGlobal(name.s) && !FunctionLike(GetAttribute(n, "parent")) ==>
        ClosureUseLevel(n) == Err(PhpError)
    ensures var name := PropOf(Prop(n, "var"), "name");
      var parent := GetAttribute(n, "parent");
      name.Str? && !Quirks.IsSuperGlobal(name.s) && FunctionLike(parent) &&
      Quirks.GetParameterVariableNames(Prop(parent.node, "params")).Err? ==>
        ClosureUseLevel(n) == Err(Quirks.GetParameterVariableNames(Prop(parent.node, "params")).error)
    ensures ClosureUseLevel(n).Err? ==> PropOf(Prop(n, "var"), "name").Str?
  {
  }

  /** ConstFetch: E_USER_DEPRECATED needs 5.3; toString() of the name may fail. */
  function ConstFetchLevel(n: Node): (r: Result<Option<Level>>)
    ensures r.Ok? <==> CallToString(Prop(n, "name")).Ok?
    ensures r == Ok(Some(PHP5_3)) <==> CallToString(Prop(n, "name")) == Ok("E_USER_DEPRECATED")
    ensures r.Ok? && r.value != Some(PHP5_3) ==> r.value == None
  {
    var s := CallToString(Prop(n, "name"));
    if s.Err? then Err(s.error)
    else if s.value == "E_USER_DEPRECATED" then Ok(Some(PHP5_3))
    else Ok(None)
  }

  /** Empty_: empty() of anything but a variable needs 5.5. */
  function EmptyLevel(n: Node): (r: Option<Level>)
    ensures r == Some(PHP5_5) <==> !InstanceOf(Prop(n, "expr"), Expr_Variable)
    ensures r != Some(PHP5_5) ==> r == None
  {
    if !InstanceOf(Prop(n, "expr"), Expr_Variable) then Some(PHP5_5) else None
  }

  /** Instanceof_: an arbitrary expression as class needs 8.0; else a constant on the left needs 7.3. */
  function InstanceofLevel(n: Node): (r: Option<Level>)
    ensures r == Some(PHP8_0) <==>
      InstanceOf(Prop(n, "class"), Expr) && !InstanceOf(Prop(n, "class"), Expr_Variable)
    ensures r == Some(PHP7_3) <==>
      !(InstanceOf(Prop(n, "class"), Expr) && !InstanceOf(Prop(n, "class"), Expr_Variable)) &&
      InstanceOf(Prop(n, "expr"), Expr_ConstFetch)
    ensures r == None || r == Some(PHP8_0) || r == Some(PHP7_3)
  {
    var c := Prop(n, "class");
    if InstanceOf(c, Expr) && !InstanceOf(c, Expr_Variable) then Some(PHP8_0)
    else if InstanceOf(Prop(n, "expr"), Expr_ConstFetch) then Some(PHP7_3)
    else None
  }

  /** The foreach over isset()'s vars: 5.5 as soon as one of them IS a Variable (the rule as written). */
  function IssetSearch(vars: seq<Value>): (r: Option<Level>)
    ensures r == Some(PHP5_5) <==> exists i :: 0 <= i < |vars| && InstanceOf(vars[i], Expr_Variable)
    ensures r != Some(PHP5_5) ==> r == None
  {
    if |vars| == 0 then None
    else if InstanceOf(vars[0], Expr_Variable) then Some(PHP5_5)
    else
      var r := IssetSearch(vars[1..]);
      assert forall i :: 1 <= i < |vars| ==> vars[i] == vars[1..][i - 1];
      r
  }

  function IssetLevel(n: Node): Option<Level>
  {
    IssetSearch(Iterate(Prop(n, "vars")))
  }

  /** What one list() item needs: by reference 7.2, else a key 7.1. */
  function ListItemLevel(item: Value): (r: Option<Level>)
    ensures r == Some(PHP7_2) <==> !Falsy(PropOf(item, "byRef"))
    ensures r == Some(PHP7_1) <==> Falsy(PropOf(item, "byRef")) && !Falsy(PropOf(item, "key"))
    ensures r == None || r == Some(PHP7_2) || r == Some(PHP7_1)
  {
    if !Falsy(PropOf(item, "byRef")) then Some(PHP7_2)
    else if !Falsy(PropOf(item, "key")) then Some(PHP7_1)
    else None
  }

  /** The foreach over list()'s items: the first item that needs something decides. */
  function ListSearch(items: seq<Value>): (r: Option<Level>)
    ensures r == None <==> forall i :: 0 <= i < |items| ==> ListItemLevel(items[i]) == None
  {
    if |items| == 0 then None
    else if ListItemLevel(items[0]).Some? then ListItemLevel(items[0])
    else
      assert forall i :: 1 <= i < |items| ==> items[i] == items[1..][i - 1];
      ListSearch(items[1..])
  }

  /** The answer of the list rule is that of the first item that needs anything. */
  lemma {:induction false} ListSearchFirstMatch(items: seq<Value>)
    ensures ListSearch(items).Some? ==>
      exists i :: 0 <= i < |items| && ListSearch(items) == ListItemLevel(items[i]) &&
        forall j :: 0 <= j < i ==> ListItemLevel(items[j]) == None
  {
    if |items| > 0 && ListItemLevel(items[0]).None? && ListSearch(items).Some? {
      var tail := items[1..];
      ListSearchFirstMatch(tail);
      var k :| 0 <= k < |tail| && ListSearch(tail) == ListItemLevel(tail[k]) &&
        forall j :: 0 <= j < k ==> ListItemLevel(tail[j]) == None;
      assert items[k + 1] == tail[k];
      assert forall j :: 1 <= j < k + 1 ==> items[j] == tail[j - 1];
    } else if |items| > 0 && ListSearch(items).Some? {
      assert ListSearch(items) == ListItemLevel(items[0]);
    }
  }

  function ListLevel(n: Node): Option<Level>
  {
    ListSearch(Iterate(Prop(n, "items")))
  }

  /** MethodCall: a variable method name that is a semi-reserved keyword needs 7.0. */
  function MethodCallLevel(n: Node, semi: KeywordTest): (r: Option<Level>)
    ensures r == Some(PHP7_0) <==>
      InstanceOf(Prop(n, "name"), Expr_Variable) && Prop(Prop(n, "name").node, "name").Str? &&
      semi(Prop(Prop(n, "name").node, "name").s)
    ensures r != Some(PHP7_0) ==> r == None
  {
    var name := Prop(n, "name");
    if InstanceOf(name, Expr_Variable) && Prop(name.node, "name").Str? && semi(Prop(name.node, "name").s)
    then Some(PHP7_0) else None
  }

  /** New_: an arbitrary class expression needs 8.0, an anonymous class 7.0. */
  function NewLevel(n: Node): (r: Option<Level>)
    ensures r == Some(PHP8_0) <==>
      InstanceOf(Prop(n, "class"), Expr) && !InstanceOf(Prop(n, "class"), Expr_Variable) &&
      !InstanceOf(Prop(n, "class"), Expr_PropertyFetch) && !InstanceOf(Prop(n, "class"), Expr_ArrayDimFetch)
    ensures r == Some(PHP7_0) <==> InstanceOf(Prop(n, "class"), Stmt_Class_)
    ensures r == None || r == Some(PHP8_0) || r == Some(PHP7_0)
  {
    var c := Prop(n, "class");
    ClassesAreNotExpressions(if c.Obj? then c.node.cls else Expr);
    if InstanceOf(c, Expr) && !InstanceOf(c, Expr_Variable) && !InstanceOf(c, Expr_PropertyFetch) &&
      !InstanceOf(c, Expr_ArrayDimFetch)
    then Some(PHP8_0)
    else if InstanceOf(c, Stmt_Class_) then Some(PHP7_0)
    else None
  }

  // ---------------------------------------------------------------- Scalar rules

  /**
   * `$rawValue[1]`: a character of a string ("" past its end), an element of
   * an array, null for null and other scalars, and an Error for objects.
   */
  function SecondChar(raw: Value): (r: Result<Value>)
    ensures raw.Str? && |raw.s| >= 2 ==> r == Ok(Str([raw.s[1]]))
    ensures raw.Str? && |raw.s| < 2 ==> r == Ok(Str(""))
    ensures raw.Null? ==> r == Ok(Null)
  {
    match raw
    case Str(s) => Ok(Str(if |s| >= 2 then [s[1]] else ""))
    case Arr(items) => Ok(if |items| >= 2 then items[1] else Null)
    case Obj(_) => Err(PhpError)
    case Lvl(_) => Err(PhpError)
    case _ => Ok(Null)
  }

  /**
   * The numeric from-rule of LNumber and DNumber, first match wins: an octal
   * literal written 0o/0O needs 8.1, a literal with '_' separators 7.4, a
   * binary literal 5.4. The kind defaults to decimal.
   */
  function NumericLevel(n: Node): Result<Option<Level>>
  {
    var kind := GetAttribute(n, "kind", Int(KIND_DEC));
    var raw := GetAttribute(n, "rawValue");
    var second := if kind == Int(KIND_OCT) then SecondChar(raw) else Ok(Null);
    if second.Err? then Err(second.error)
    else if kind == Int(KIND_OCT) && (second.value == Str("o") || second.value == Str("O")) then Ok(Some(PHP8_1))
    else if raw.Null? then Ok(if kind == Int(KIND_BIN) then Some(PHP5_4) else None)
    else
      var text := StringArgument(raw);
      if text.Err? then Err(text.error)
      else if '_' in text.value then Ok(Some(PHP7_4))
      else if kind == Int(KIND_BIN) then Ok(Some(PHP5_4))
      else Ok(None)
  }

  /** An octal literal written with the explicit 0o / 0O prefix. */
  predicate OctalO(n: Node, text: string)
  {
    GetAttribute(n, "kind", Int(KIND_DEC)) == Int(KIND_OCT) && |text| >= 2 && (text[1] == 'o' || text[1] == 'O')
  }

  /** The numeric rule on a literal whose raw text the parser recorded as a string. */
  lemma NumericOnText(n: Node, text: string)
    requires GetAttribute(n, "rawValue") == Str(text)
    ensures OctalO(n, text) ==> NumericLevel(n) == Ok(Some(PHP8_1))
    ensures !OctalO(n, text) && '_' in text ==> NumericLevel(n) == Ok(Some(PHP7_4))
    ensures !OctalO(n, text) && '_' !in text ==>
      NumericLevel(n) == Ok(if GetAttribute(n, "kind", Int(KIND_DEC)) == Int(KIND_BIN) then Some(PHP5_4) else None)
  {
    var kind := GetAttribute(n, "kind", Int(KIND_DEC));
    if kind == Int(KIND_OCT) && |text| < 2 {
      assert SecondChar(Str(text)) == Ok(Str(""));
      assert Str("") != Str("o") && Str("") != Str("O");
    }
    if kind == Int(KIND_OCT) && |text| >= 2 && !(text[1] == 'o' || text[1] == 'O') {
      assert SecondChar(Str(text)) == Ok(Str([text[1]]));
      assert [text[1]] != "o" && [text[1]] != "O";
    }
  }

  /** Without raw text, a number needs 5.4 exactly when it is binary. */
  lemma NumericWithoutText(n: Node)
    requires GetAttribute(n, "rawValue") == Null
    ensures NumericLevel(n) == Ok(if GetAttribute(n, "kind", Int(KIND_DEC)) == Int(KIND_BIN) then Some(PHP5_4) else None)
  {
  }

  /**
   * LNumber (to): an octal literal whose raw text is exactly three
   * characters, the first of them 4 to 7, was allowed up to 7.0.
   */
  function LNumberToLevel(n: Node): Result<Option<Level>>
  {
    if GetAttribute(n, "kind") != Int(KIND_OCT) then Ok(None)
    else
      var text := StringArgument(GetAttribute(n, "rawValue"));
      if text.Err? then Err(text.error)
      else if |text.value| != 3 then Ok(None)
      else if text.value[..1] in ["4", "5", "6", "7"] then Ok(Some(PHP7_0))
      else Ok(None)
  }

  /** The octal to-rule answers 7.0 only for three-character raw text starting with 4 .. 7. */
  lemma LNumberToCases(n: Node, text: string)
    requires GetAttribute(n, "rawValue") == Str(text)
    ensures LNumberToLevel(n).Ok?
    ensures LNumberToLevel(n).value == Some(PHP7_0) <==>
      GetAttribute(n, "kind") == Int(KIND_OCT) && |text| == 3 && '4' <= text[0] <= '7'
    ensures LNumberToLevel(n).value != Some(PHP7_0) ==> LNumberToLevel(n).value == None
  {
    if GetAttribute(n, "kind") == Int(KIND_OCT) && |text| == 3 {
      var c := text[0];
      assert text[..1] == [c];
      assert [c] in ["4", "5", "6", "7"] <==> c == '4' || c == '5' || c == '6' || c == '7';
    }
  }

  /** Raw text starting with '0', as every octal literal's does, never triggers the to-rule. */
  lemma LNumberToSkipsLeadingZero(n: Node, text: string)
    requires GetAttribute(n, "rawValue") == Str(text) && |text| > 0 && text[0] == '0'
    ensures LNumberToLevel(n) == Ok(None)
  {
    LNumberToCases(n, text);
  }

  // ---------------------------------------------------------------- Stmt rules

  /** Catch_: catch without a variable needs 8.0, else several caught types need 7.1. */
  function CatchLevel(n: Node): (r: Result<Option<Level>>)
    ensures !Present(n, "var") ==> r == Ok(Some(PHP8_0))
    ensures Present(n, "var") ==> (r.Ok? <==> Prop(n, "types").Arr?)
    ensures Present(n, "var") && Prop(n, "types").Arr? ==>
      r == Ok(if |Prop(n, "types").items| > 1 then Some(PHP7_1) else None)
  {
    if !Present(n, "var") then Ok(Some(PHP8_0))
    else
      var k := Count(Prop(n, "types"));
      if k.Err? then Err(k.error)
      else if k.value > 1 then Ok(Some(PHP7_1))
      else Ok(None)
  }

  /** ClassConst: a final constant needs 8.1, else a visibility modifier needs 7.1. */
  function ClassConstLevel(n: Node): Result<Option<Level>>
  {
    var flags := IntOperand(Prop(n, "flags"));
    if flags.Err? then Err(flags.error)
    else if BitAnd(flags.value, MODIFIER_FINAL) != 0 then Ok(Some(PHP8_1))
    else
      var f := IntParameter(Prop(n, "flags"));
      if f.Err? then Err(f.error)
      else if Quirks.FlagsHaveVisibilityModifier(f.value) then Ok(Some(PHP7_1))
      else Ok(None)
  }

  /** On integer flags the rule reads bit 5 (final) first, then bits 0 .. 2 (visibility). */
  lemma ClassConstOnFlags(n: Node, f: int)
    requires Prop(n, "flags") == Int(f)
    ensures HasBit(f, 5) ==> ClassConstLevel(n) == Ok(Some(PHP8_1))
    ensures !HasBit(f, 5) ==>
      ClassConstLevel(n) == Ok(if HasBit(f, 0) || HasBit(f, 1) || HasBit(f, 2) then Some(PHP7_1) else None)
  {
    assert Pow2(5) == MODIFIER_FINAL;
    BitAndSingle(f, 5);
    Quirks.VisibilityIsLowBits(f);
  }

  /** Unset flags (null) are 0 for `&` but a TypeError for the int parameter of the visibility test. */
  lemma ClassConstNullFlags(n: Node)
    requires Prop(n, "flags") == Null
    ensures ClassConstLevel(n) == Err(TypeError)
  {
  }

  /** The magic methods and the level that introduced them. */
  function MagicMethodLevel(name: string): (r: Option<Level>)
    ensures r == Some(PHP5_3) <==> name == "__invoke" || name == "__callStatic"
    ensures r == Some(PHP5_6) <==> name == "__debugInfo"
    ensures r == Some(PHP7_4) <==> name == "__serialize" || name == "__unserialize"
    ensures r == None <==> name !in ["__invoke", "__callStatic", "__debugInfo", "__serialize", "__unserialize"]
  {
    if name == "__invoke" || name == "__callStatic" then Some(PHP5_3)
    else if name == "__debugInfo" then Some(PHP5_6)
    else if name == "__serialize" || name == "__unserialize" then Some(PHP7_4)
    else None
  }

  /**
   * ClassMethod (from): a return type decides; otherwise a semi-reserved
   * method name needs 7.0, and some magic methods their own level.
   */
  function ClassMethodLevel(n: Node, semi: KeywordTest): (r: Result<Option<Level>>)
    ensures Present(n, "returnType") ==> r == ReturnTypeRule(n)
    ensures !Present(n, "returnType") ==>
      var name := CastToString(PropOf(Prop(n, "name"), "name"));
      (r.Ok? <==> name.Ok?) &&
      (name.Ok? ==> r.value == if semi(name.value) then Some(PHP7_0) else MagicMethodLevel(name.value))
  {
    if Present(n, "returnType") then ReturnTypeRule(n)
    else
      var name := CastToString(PropOf(Prop(n, "name"), "name"));
      if name.Err? then Err(name.error)
      else if semi(name.value) then Ok(Some(PHP7_0))
      else Ok(MagicMethodLevel(name.value))
  }

  /** ClassMethod (to): __autoload was allowed up to 7.1. */
  function ClassMethodToLevel(n: Node): (r: Option<Level>)
    ensures r == Some(PHP7_1) <==> IsString(PropOf(Prop(n, "name"), "name"), "__autoload")
    ensures r != Some(PHP7_1) ==> r == None
  {
    if IsString(PropOf(Prop(n, "name"), "name"), "__autoload") then Some(PHP7_1) else None
  }

  /** Class_ (to): classes named void or iterable were allowed up to 7.0, object up to 7.1. */
  function ClassToLevel(n: Node): (r: Result<Option<Level>>)
    ensures r.Ok? <==> CastToString(PropOf(Prop(n, "name"), "name")).Ok?
    ensures r.Ok? ==>
      var s := CastToString(PropOf(Prop(n, "name"), "name")).value;
      r.value == if s == "void" || s == "iterable" then Some(PHP7_0) else if s == "object" then Some(PHP7_1) else None
  {
    var s := CastToString(PropOf(Prop(n, "name"), "name"));
    if s.Err? then Err(s.error)
    else
      var name := if s.value == "" || s.value == "0" then "" else s.value;
      if name == "void" || name == "iterable" then Ok(Some(PHP7_0))
      else if name == "object" then Ok(Some(PHP7_1))
      else Ok(None)
  }

  /** The foreach over values that looks for a `new` expression in `$x?->value`. */
  function NewValueSearch(xs: seq<Value>): (r: bool)
    ensures r <==> exists i :: 0 <= i < |xs| && InstanceOf(PropOf(xs[i], "value"), Expr_New_)
  {
    if |xs| == 0 then false
    else if InstanceOf(PropOf(xs[0], "value"), Expr_New_) then true
    else
      var r := NewValueSearch(xs[1..]);
      assert forall i :: 1 <= i < |xs| ==> xs[i] == xs[1..][i - 1];
      r
  }

  /** Stmt\Const_: a constant initialised with `new` needs 8.1. */
  function StmtConstLevel(n: Node): (r: Option<Level>)
    ensures r == Some(PHP8_1) <==> NewValueSearch(Iterate(Prop(n, "consts")))
    ensures r != Some(PHP8_1) ==> r == None
  {
    if NewValueSearch(Iterate(Prop(n, "consts"))) then Some(PHP8_1) else None
  }

  /** Foreach_: list() as loop value needs 5.5, a short list 7.1. */
  function ForeachLevel(n: Node): (r: Option<Level>)
    ensures r == Some(PHP5_5) <==> InstanceOf(Prop(n, "valueVar"), Expr_List_)
    ensures r == Some(PHP7_1) <==> !InstanceOf(Prop(n, "valueVar"), Expr_List_) && InstanceOf(Prop(n, "valueVar"), Expr_Array_)
    ensures r == None || r == Some(PHP5_5) || r == Some(PHP7_1)
  {
    var v := Prop(n, "valueVar");
    if InstanceOf(v, Expr_List_) then Some(PHP5_5)
    else if InstanceOf(v, Expr_Array_) then Some(PHP7_1)
    else None
  }

  /** Property: readonly needs 8.1, else a declared type 7.4. */
  function PropertyLevel(n: Node): Result<Option<Level>>
  {
    var flags := IntOperand(Prop(n, "flags"));
    if flags.Err? then Err(flags.error)
    else if BitAnd(flags.value, MODIFIER_READONLY) != 0 then Ok(Some(PHP8_1))
    else if Present(n, "type") then Ok(Some(PHP7_4))
    else Ok(None)
  }

  /** On integer flags the property rule reads bit 6 (readonly), then whether a type is declared. */
  lemma PropertyOnFlags(n: Node, f: int)
    requires Prop(n, "flags") == Int(f)
    ensures PropertyLevel(n) ==
      Ok(if HasBit(f, 6) then Some(PHP8_1) else if Present(n, "type") then Some(PHP7_4) else None)
  {
    assert Pow2(6) == MODIFIER_READONLY;
    BitAndSingle(f, 6);
  }

  /** StaticVar: a `new` default needs 8.1. */
  function StaticVarLevel(n: Node): (r: Option<Level>)
    ensures r == Some(PHP8_1) <==> InstanceOf(Prop(n, "default"), Expr_New_)
    ensures r != Some(PHP8_1) ==> r == None
  {
    if InstanceOf(Prop(n, "default"), Expr_New_) then Some(PHP8_1) else None
  }

  /** Use_: `use function` needs 5.6, every other use 5.3. */
  function UseLevel(n: Node): (r: Level)
    ensures r == PHP5_6 <==> Prop(n, "type") == Int(TYPE_FUNCTION)
    ensures r != PHP5_6 ==> r == PHP5_3
  {
    if Prop(n, "type") == Int(TYPE_FUNCTION) then PHP5_6 else PHP5_3
  }

  // ---------------------------------------------------------------- other rules

  /** Arg: a named argument needs 8.0, else unpacking 5.6. */
  function ArgLevel(n: Node): (r: Option<Level>)
    ensures r == Some(PHP8_0) <==> Present(n, "name")
    ensures r == Some(PHP5_6) <==> !Present(n, "name") && Present(n, "unpack")
    ensures r == None || r == Some(PHP8_0) || r == Some(PHP5_6)
  {
    if Present(n, "name") then Some(PHP8_0)
    else if Present(n, "unpack") then Some(PHP5_6)
    else None
  }

  /** Attribute: 8.0, or 8.1 when one of its arguments is a `new` expression. */
  function AttributeLevel(n: Node): (r: Level)
    ensures r == PHP8_1 <==> NewValueSearch(Iterate(Prop(n, "args")))
    ensures r != PHP8_1 ==> r == PHP8_0
  {
    if NewValueSearch(Iterate(Prop(n, "args"))) then PHP8_1 else PHP8_0
  }

  /** Node\Const_: a semi-reserved name needs 7.0, else a non-scalar value 5.5. */
  function ConstLevel(n: Node, semi: KeywordTest): (r: Result<Option<Level>>)
    ensures r.Ok? <==> CastToString(Prop(n, "name")).Ok?
    ensures r.Ok? ==>
      r.value == if semi(CastToString(Prop(n, "name")).value) then Some(PHP7_0)
                 else if !InstanceOf(Prop(n, "value"), Scalar) then Some(PHP5_5)
                 else None
  {
    var name := CastToString(Prop(n, "name"));
    if name.Err? then Err(name.error)
    else if semi(name.value) then Ok(Some(PHP7_0))
    else if !InstanceOf(Prop(n, "value"), Scalar) then Ok(Some(PHP5_5))
    else Ok(None)
  }

  /** The level a parameter type names, if it is one of those the rule knows. */
  function ParamTypeLevel(t: string): (r: Option<Level>)
    ensures r == Some(PHP7_2) <==> t == "object"
    ensures r == Some(PHP7_1) <==> t == "iterable"
    ensures r == Some(PHP7_0) <==> t == "int" || t == "float" || t == "string" || t == "bool"
    ensures r == Some(PHP5_4) <==> t == "callable"
    ensures r == None <==> t !in ["object", "iterable", "int", "float", "string", "bool", "callable"]
  {
    if t == "object" then Some(PHP7_2)
    else if t == "iterable" then Some(PHP7_1)
    else if t in ["int", "float", "string", "bool"] then Some(PHP7_0)
    else if t == "callable" then Some(PHP5_4)
    else None
  }

  /** A declared parameter type that names one of the types the rule knows. */
  predicate KnownParamType(n: Node)
  {
    Present(n, "type") && TypeName(Prop(n, "type")).Ok? && ParamTypeLevel(TypeName(Prop(n, "type")).value).Some?
  }

  /** Param: a `new` default needs 8.1, then the type decides, then variadic needs 5.6. */
  function ParamLevel(n: Node): (r: Result<Option<Level>>)
    ensures Present(n, "default") && InstanceOf(Prop(n, "default"), Expr_New_) ==> r == Ok(Some(PHP8_1))
    ensures !(Present(n, "default") && InstanceOf(Prop(n, "default"), Expr_New_)) && Present(n, "type") ==>
      (r.Ok? <==> TypeName(Prop(n, "type")).Ok?)
    ensures !(Present(n, "default") && InstanceOf(Prop(n, "default"), Expr_New_)) && KnownParamType(n) ==>
      r == Ok(ParamTypeLevel(TypeName(Prop(n, "type")).value))
    ensures (!(Present(n, "default") && InstanceOf(Prop(n, "default"), Expr_New_)) && !KnownParamType(n) &&
             (Present(n, "type") ==> TypeName(Prop(n, "type")).Ok?)) ==>
      r == Ok(if Present(n, "variadic") then Some(PHP5_6) else None)
  {
    if Present(n, "default") && InstanceOf(Prop(n, "default"), Expr_New_) then Ok(Some(PHP8_1))
    else
      var t := if Present(n, "type") then TypeName(Prop(n, "type")) else Ok("");
      if t.Err? then Err(t.error)
      else
        var byType := if Present(n, "type") then ParamTypeLevel(t.value) else None;
        if byType.Some? then Ok(byType)
        else if Present(n, "variadic") then Ok(Some(PHP5_6))
        else Ok(None)
  }

  // ---------------------------------------------------------------- the inspectors

  /** A LanguageLevel case used as an inspector: it answers itself for every node. */
  function Fixed(l: Level): Inspector
  {
    (n: Node, semi: KeywordTest) => Ok(Some(l))
  }

  lemma FixedAnswersItself(l: Level, n: Node, semi: KeywordTest)
    ensures Fixed(l)(n, semi) == Ok(Some(l))
  {
  }

  // The registrar's anonymous inspector classes, one per rule above.

  function ArrayDimFetchFrom(n: Node, semi: KeywordTest): Result<Option<Level>>
  {
    Ok(ArrayDimFetchLevel(n))
  }

  function ArrayFrom(n: Node, semi: KeywordTest): Result<Option<Level>>
  {
    Ok(ArrayLevel(n))
  }

  function AssignFrom(n: Node, semi: KeywordTest): Result<Option<Level>>
  {
    Ok(AssignLevel(n))
  }

  function ClassConstFetchFrom(n: Node, semi: KeywordTest): Result<Option<Level>>
  {
    Ok(ClassConstFetchLevel(n))
  }

  function ClosureUseTo(n: Node, semi: KeywordTest): Result<Option<Level>>
  {
    ClosureUseLevel(n)
  }

  function ConstFetchFrom(n: Node, semi: KeywordTest): Result<Option<Level>>
  {
    ConstFetchLevel(n)
  }

  function EmptyFrom(n: Node, semi: KeywordTest): Result<Option<Level>>
  {
    Ok(EmptyLevel(n))
  }

  function InstanceofFrom(n: Node, semi: KeywordTest): Result<Option<Level>>
  {
    Ok(InstanceofLevel(n))
  }

  function IssetFrom(n: Node, semi: KeywordTest): Result<Option<Level>>
  {
    Ok(IssetLevel(n))
  }

  function ListFrom(n: Node, semi: KeywordTest): Result<Option<Level>>
  {
    Ok(ListLevel(n))
  }

  function MethodCallFrom(n: Node, semi: KeywordTest): Result<Option<Level>>
  {
    Ok(MethodCallLevel(n, semi))
  }

  function NewFrom(n: Node, semi: KeywordTest): Result<Option<Level>>
  {
    Ok(NewLevel(n))
  }

  function NumericFrom(n: Node, semi: KeywordTest): Result<Option<Level>>
  {
    NumericLevel(n)
  }

  function LNumberTo(n: Node, semi: KeywordTest): Result<Option<Level>>
  {
    LNumberToLevel(n)
  }

  function CatchFrom(n: Node, semi: KeywordTest): Result<Option<Level>>
  {
    CatchLevel(n)
  }

  function ClassConstFrom(n: Node, semi: KeywordTest): Result<Option<Level>>
  {
    ClassConstLevel(n)
  }

  function ClassMethodFrom(n: Node, semi: KeywordTest): Result<Option<Level>>
  {
    ClassMethodLevel(n, semi)
  }

  function ClassMethodTo(n: Node, semi: KeywordTest): Result<Option<Level>>
  {
    Ok(ClassMethodToLevel(n))
  }

  function ClassTo(n: Node, semi: KeywordTest): Result<Option<Level>>
  {
    ClassToLevel(n)
  }

  function StmtConstFrom(n: Node, semi: KeywordTest): Result<Option<Level>>
  {
    Ok(StmtConstLevel(n))
  }

  function ForeachFrom(n: Node, semi: KeywordTest): Result<Option<Level>>
  {
    Ok(ForeachLevel(n))
  }

  function FunctionFrom(n: Node, semi: KeywordTest): Result<Option<Level>>
  {
    ReturnTypeRule(n)
  }

  function PropertyFrom(n: Node, semi: KeywordTest): Result<Option<Level>>
  {
    PropertyLevel(n)
  }

  function StaticVarFrom(n: Node, semi: KeywordTest): Result<Option<Level>>
  {
    Ok(StaticVarLevel(n))
  }

  function UseFrom(n: Node, semi: KeywordTest): Result<Option<Level>>
  {
    Ok(Some(UseLevel(n)))
  }

  function ArgFrom(n: Node, semi: KeywordTest): Result<Option<Level>>
  {
    Ok(ArgLevel(n))
  }

  function AttributeFrom(n: Node, semi: KeywordTest): Result<Option<Level>>
  {
    Ok(Some(AttributeLevel(n)))
  }

  function ConstFrom(n: Node, semi: KeywordTest): Result<Option<Level>>
  {
    ConstLevel(n, semi)
  }

  function ParamFrom(n: Node, semi: KeywordTest): Result<Option<Level>>
  {
    ParamLevel(n)
  }

  /** The inspectors without a failure path succeed on every node. */
  lemma TotalInspectorsSucceed(n: Node, semi: KeywordTest)
    ensures ArrayDimFetchFrom(n, semi).Ok? && ArrayFrom(n, semi).Ok? && AssignFrom(n, semi).Ok?
    ensures ClassConstFetchFrom(n, semi).Ok? && EmptyFrom(n, semi).Ok? && InstanceofFrom(n, semi).Ok?
    ensures IssetFrom(n, semi).Ok? && ListFrom(n, semi).Ok? && MethodCallFrom(n, semi).Ok? && NewFrom(n, semi).Ok?
    ensures ClassMethodTo(n, semi).Ok? && StmtConstFrom(n, semi).Ok? && ForeachFrom(n, semi).Ok?
    ensures StaticVarFrom(n, semi).Ok? && UseFrom(n, semi).Ok? && ArgFrom(n, semi).Ok? && AttributeFrom(n, semi).Ok?
  {
  }
}
