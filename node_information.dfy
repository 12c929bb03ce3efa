/**
 * The two holders of per-class language-level information: the live
 * LanguageLevelInformation (a from-inspector and an optional to-inspector)
 * and the older NodeInformation with fixed levels.
 */
module NodeInformation {
  import opened Wrappers
  import opened PhpValues
  import opened LanguageLevel
  import opened LanguageLevelRules

  /** LanguageLevelInformation: introduced by `from`, removed or deprecated after `to`, if any. */
  datatype LanguageLevelInformation = LanguageLevelInformation(from: Inspector, to: Option<Inspector>)

  /** getFrom: the from-inspector's answer, PHP5_2 when it answers null. */
  function GetFrom(info: LanguageLevelInformation, n: Node, semi: KeywordTest): (r: Result<Level>)
    ensures r.Err? <==> info.from(n, semi).Err?
    ensures info.from(n, semi) == Ok(None) ==> r == Ok(PHP5_2)
    ensures forall l :: info.from(n, semi) == Ok(Some(l)) ==> r == Ok(l)
  {
    var answer := info.from(n, semi);
    if answer.Err? then Err(answer.error)
    else if answer.value.Some? then Ok(answer.value.value)
    else Ok(PHP5_2)
  }

  /** getTo: null without a to-inspector, otherwise that inspector's answer unchanged. */
  function GetTo(info: LanguageLevelInformation, n: Node, semi: KeywordTest): (r: Result<Option<Level>>)
    ensures info.to.None? ==> r == Ok(None)
    ensures info.to.Some? ==> r == info.to.value(n, semi)
  {
    if info.to.None? then Ok(None) else info.to.value(n, semi)
  }

  /** isDeprecated: whether a to-inspector was supplied. */
  predicate IsDeprecated(info: LanguageLevelInformation)
  {
    info.to.Some?
  }

  /**
   * isDeprecated does not depend on what the to-inspector answers: a class
   * method information is deprecated although getTo is null for a method
   * not named __autoload.
   */
  lemma DeprecatedWhateverToAnswers(n: Node, semi: KeywordTest)
    requires !IsString(PropOf(Prop(n, "name"), "name"), "__autoload")
    ensures var info := LanguageLevelInformation(ClassMethodFrom, Some(ClassMethodTo));
      IsDeprecated(info) && GetTo(info, n, semi) == Ok(None)
  {
  }

  /** The older NodeInformation: a class name and fixed levels. */
  datatype FixedInformation = NodeInformation(className: string, from: Level, to: Option<Level> := None)

  function GetClass(info: FixedInformation): string
  {
    info.className
  }

  function FixedFrom(info: FixedInformation, n: Node): Level
  {
    info.from
  }

  function FixedTo(info: FixedInformation, n: Node): Option<Level>
  {
    info.to
  }

  predicate FixedIsDeprecated(info: FixedInformation)
  {
    info.to.Some?
  }

  /** The same levels as inspectors: an enum case answers itself. */
  function AsInspected(info: FixedInformation): LanguageLevelInformation
  {
    LanguageLevelInformation(Fixed(info.from), if info.to.Some? then Some(Fixed(info.to.value)) else None)
  }

  /**
   * A fixed holder answers, for every node, exactly what the live holder
   * answers with its levels used as inspectors; its class name is the one
   * it was built with and its `to` defaults to null.
   */
  lemma FixedAgreesWithInspected(info: FixedInformation, n: Node, semi: KeywordTest)
    ensures GetFrom(AsInspected(info), n, semi) == Ok(FixedFrom(info, n))
    ensures GetTo(AsInspected(info), n, semi) == Ok(FixedTo(info, n))
    ensures IsDeprecated(AsInspected(info)) == FixedIsDeprecated(info)
    ensures FixedIsDeprecated(info) <==> FixedTo(info, n) != None
    ensures GetClass(info) == info.className
    ensures NodeInformation(info.className, info.from).to == None
  {
    FixedAnswersItself(info.from, n, semi);
    if info.to.Some? {
      FixedAnswersItself(info.to.value, n, semi);
    }
  }

  /** The fixed levels are the same for every node. */
  lemma FixedIgnoresNode(info: FixedInformation, n: Node, m: Node)
    ensures FixedFrom(info, n) == FixedFrom(info, m) && FixedTo(info, n) == FixedTo(info, m)
  {
  }
}
