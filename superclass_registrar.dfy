/**
 * SuperclassInformationRegistrar: every node class is given its umbrella
 * label, the topmost of its ancestors among the node classes (itself for
 * the roots).
 */
module SuperclassRegistrar {
  import opened Wrappers
  import opened PhpClasses
  import opened Registry
  import opened SuperclassLabels

  /** The table as registered: the label's class name wrapped as superclass information. */
  function Superclasses(c: Cls): Option<Information>
  {
    if Label(c).Some? then Some(Superclass(ClassName(Label(c).value))) else None
  }

  /**
   * map: one `map` call per entry. On a mapping without superclass
   * information it succeeds and adds exactly the table; it fails exactly
   * when a class of the table already has some.
   */
  method Map(mapping: NodeInformationMapping) returns (r: Outcome)
    modifies mapping
    ensures Free(old(mapping.nodeMap), SuperclassType) ==>
      r == Pass && mapping.nodeMap == WithEntries(old(mapping.nodeMap), SuperclassType, Superclasses, TableKeys(Superclasses))
    ensures r.Fail? ==> !Free(old(mapping.nodeMap), SuperclassType)
    ensures r.Fail? <==> Clashes(old(mapping.nodeMap), SuperclassType, Superclasses)
  {
    r := MapTable(mapping, SuperclassType, Superclasses);
  }

  /**
   * `get(get_class($node), SuperclassInformation::class)->getSuperClass()`:
   * the mapping's errors for a missing class or type, PHP's own error when
   * the information found has no getSuperClass.
   */
  function SuperclassOf(m: NodeMap, c: Cls): (r: Result<string>)
    ensures Lookup(m, c, SuperclassType).Err? ==> r == Err(Lookup(m, c, SuperclassType).error)
    ensures forall s :: Lookup(m, c, SuperclassType) == Ok(Superclass(s)) ==> r == Ok(s)
  {
    var found := Lookup(m, c, SuperclassType);
    if found.Err? then Err(found.error)
    else if found.value.Superclass? then Ok(found.value.superclass)
    else Err(PhpError)
  }

  /**
   * Once the table is registered, every labelled class resolves to the
   * class name of its umbrella label.
   */
  lemma SuperclassOfRegistered(m: NodeMap, c: Cls)
    requires Free(m, SuperclassType)
    ensures Label(c).Some? ==>
      SuperclassOf(WithEntries(m, SuperclassType, Superclasses, TableKeys(Superclasses)), c) == Ok(ClassName(Label(c).value))
  {
    LookupAfterTable(m, SuperclassType, Superclasses, c);
  }

  /** The builder class, absent from the table, resolves as it did before. */
  lemma SuperclassOfUnlabelled(m: NodeMap, c: Cls)
    requires Free(m, SuperclassType)
    ensures Label(c).None? ==>
      SuperclassOf(WithEntries(m, SuperclassType, Superclasses, TableKeys(Superclasses)), c) == SuperclassOf(m, c)
  {
    LookupAfterTable(m, SuperclassType, Superclasses, c);
  }
}
