/**
 * `Quirks`: the superglobal list, the visibility-modifier bit test and the
 * parameter-name extraction that the ClosureUse and ClassConst rules use.
 */
module Quirks {
  import opened Wrappers
  import opened PhpClasses
  import opened PhpValues

  /** SUPERGLOBALS, in declaration order. */
  const SUPERGLOBALS: seq<string> :=
    ["GLOBALS", "_SERVER", "_GET", "_POST", "_FILES", "_COOKIE", "_SESSION", "_REQUEST", "_ENV"]

  /**
   * isSuperGlobal: in_array against SUPERGLOBALS. None of the nine names is a
   * numeric string, so PHP's loose comparison is plain string equality here.
   */
  predicate IsSuperGlobal(name: string)
  {
    name in SUPERGLOBALS
  }

  /** Exactly the nine superglobal names are recognised; `this` is not one of them. */
  lemma SuperGlobals(name: string)
    ensures IsSuperGlobal(name) <==>
      name == "GLOBALS" || name == "_SERVER" || name == "_GET" || name == "_POST" ||
      name == "_FILES" || name == "_COOKIE" || name == "_SESSION" || name == "_REQUEST" ||
      name == "_ENV"
    ensures !IsSuperGlobal("this")
  {
    assert "this" != "GLOBALS" && "this" != "_SERVER" && "this" != "_GET";
  }

  /** Class_::MODIFIER_PUBLIC, MODIFIER_PROTECTED and MODIFIER_PRIVATE. */
  const MODIFIER_PUBLIC: int := 1
  const MODIFIER_PROTECTED: int := 2
  const MODIFIER_PRIVATE: int := 4

  /** flagsHaveVisibilityModifier: `flag & (PRIVATE | PROTECTED | PUBLIC)` read as a bool. */
  predicate FlagsHaveVisibilityModifier(flag: int)
  {
    BitAnd(flag, MODIFIER_PRIVATE + MODIFIER_PROTECTED + MODIFIER_PUBLIC) != 0
  }

  /** The three low bits of f, read off its remainder modulo 8. */
  lemma LowBits(f: int)
    ensures f % 8 == (f / Pow2(0)) % 2 + 2 * ((f / Pow2(1)) % 2) + 4 * ((f / Pow2(2)) % 2)
  {
    assert Pow2(0) == 1 && Pow2(1) == 2 && Pow2(2) == 4;
    HalfStep(f, 4);
    HalfStep(f / 2, 2);
    HalfStep(f, 2);
  }

  /** The flags carry a visibility modifier exactly when one of bits 0, 1 and 2 is set. */
  lemma VisibilityIsLowBits(flag: int)
    ensures FlagsHaveVisibilityModifier(flag) <==> HasBit(flag, 0) || HasBit(flag, 1) || HasBit(flag, 2)
  {
    assert Pow2(3) == 8;
    BitAndLowMask(flag, 3);
    LowBits(flag);
  }

  /** `(string)$param->var->name` inside the array_map callback, whose parameter is typed Param. */
  function ParameterName(param: Value): Result<string>
  {
    if !InstanceOf(param, Param) then Err(TypeError)
    else CastToString(PropOf(Prop(param.node, "var"), "name"))
  }

  /** array_map of ParameterName over a list, stopping at the first exception. */
  function ParameterNames(params: seq<Value>): (r: Result<seq<string>>)
    ensures r.Ok? <==> forall i :: 0 <= i < |params| ==> ParameterName(params[i]).Ok?
    ensures r.Ok? ==> |r.value| == |params|
    ensures r.Ok? ==> forall i :: 0 <= i < |params| ==> r.value[i] == ParameterName(params[i]).value
  {
    if |params| == 0 then Ok([])
    else
      var head := ParameterName(params[0]);
      if head.Err? then Err(head.error)
      else
        var tail := ParameterNames(params[1..]);
        if tail.Err? then tail
        else
          assert forall i :: 1 <= i < |params| ==> params[i] == params[1..][i - 1];
          Ok([head.value] + tail.value)
  }

  /**
   * getParameterVariableNames(array $params): one name per parameter, in the
   * same order; a non-array argument is a TypeError.
   */
  function GetParameterVariableNames(params: Value): (r: Result<seq<string>>)
    ensures !params.Arr? ==> r == Err(TypeError)
    ensures params.Arr? ==> r == ParameterNames(params.items)
  {
    if params.Arr? then ParameterNames(params.items) else Err(TypeError)
  }
}
