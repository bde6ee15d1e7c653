/**
 * `FamilyManagerDescriptor`: the lock state of every family parameter, and (with
 * the document as context) the family parameter associated with each parameter of
 * every element of the document.
 */
module FamilyManagerDescriptor {
  import opened Wrappers
  import opened Engine
  import Text
  import Sequences

  /** A family parameter, shown by its definition's name. */
  datatype FamilyParameter = FamilyParameter(definitionName: string)

  /** The manager: its parameters and its three queries on them. */
  datatype FamilyManager<!P> = FamilyManager(
    parameters: seq<FamilyParameter>,
    isParameterLockable: FamilyParameter -> bool,
    isParameterLocked: FamilyParameter -> bool,
    associatedFamilyParameter: P -> Option<FamilyParameter>)

  /** A document element and its parameters, in `element.Parameters` order. */
  datatype Element<P> = Element(parameters: seq<P>)

  datatype Resolver = IsParameterLockable | IsParameterLocked

  datatype ContextResolver = GetAssociatedFamilyParameter

  /** The plain `Resolve`: the two lock queries. */
  function Resolve(target: string): (r: Resolution<Resolver>)
    ensures !r.Disabled?
    ensures r == Factory(IsParameterLockable) <==> target == "IsParameterLockable"
    ensures r == Factory(IsParameterLocked) <==> target == "IsParameterLocked"
  {
    if target == "IsParameterLockable" then Factory(IsParameterLockable)
    else if target == "IsParameterLocked" then Factory(IsParameterLocked)
    else Unresolved
  }

  /** The document-context `Resolve`: only the associated-parameter lookup. */
  function ResolveInContext(target: string): (r: Resolution<ContextResolver>)
    ensures !r.Disabled?
    ensures r.Factory? <==> target == "GetAssociatedFamilyParameter"
  {
    if target == "GetAssociatedFamilyParameter" then Factory(GetAssociatedFamilyParameter) else Unresolved
  }

  /** The associated-parameter lookup needs the document: the plain table never offers it. */
  lemma AssociationNeedsDocument()
    ensures Resolve("GetAssociatedFamilyParameter") == Unresolved
    ensures ResolveInContext("GetAssociatedFamilyParameter").Factory?
  {
  }

  /** `$"{parameter.Definition.Name}: {result}"`. */
  function LockLabel(parameter: FamilyParameter, result: bool): string
  {
    parameter.definitionName + ": " + Text.BoolToString(result)
  }

  /** One lock query over every family parameter, in order, labelled "{name}: {result}". */
  method ResolveLockQuery(parameters: seq<FamilyParameter>, query: FamilyParameter -> bool) returns (r: Variant<bool>)
    ensures r.Values? && |r.entries| == |parameters|
    ensures forall k | 0 <= k < |parameters| ::
      r.entries[k] == Entry(query(parameters[k]), Some(LockLabel(parameters[k], query(parameters[k]))))
  {
    var variants := new Builder<bool>(|parameters|);
    for i := 0 to |parameters|
      invariant !variants.consumed && |variants.entries| == i
      invariant forall k | 0 <= k < i ::
        variants.entries[k] == Entry(query(parameters[k]), Some(LockLabel(parameters[k], query(parameters[k]))))
    {
      var parameter := parameters[i];
      var result := query(parameter);
      variants.AddLabelled(result, LockLabel(parameter, result));
    }
    r := variants.Consume();
  }

  /** `IsParameterLockable`: the lockability of every family parameter. */
  method ResolveIsParameterLockable<P>(manager: FamilyManager<P>) returns (r: Variant<bool>)
    ensures r.Values? && |r.entries| == |manager.parameters|
    ensures forall k | 0 <= k < |manager.parameters| ::
      var p := manager.parameters[k];
      r.entries[k] == Entry(manager.isParameterLockable(p), Some(LockLabel(p, manager.isParameterLockable(p))))
  {
    r := ResolveLockQuery(manager.parameters, manager.isParameterLockable);
  }

  /** `IsParameterLocked`: the lock state of every family parameter. */
  method ResolveIsParameterLocked<P>(manager: FamilyManager<P>) returns (r: Variant<bool>)
    ensures r.Values? && |r.entries| == |manager.parameters|
    ensures forall k | 0 <= k < |manager.parameters| ::
      var p := manager.parameters[k];
      r.entries[k] == Entry(manager.isParameterLocked(p), Some(LockLabel(p, manager.isParameterLocked(p))))
  {
    r := ResolveLockQuery(manager.parameters, manager.isParameterLocked);
  }

  /** Every parameter of every element, element by element. */
  function AllParameters<P>(elements: seq<Element<P>>): seq<P>
  {
    if elements == [] then [] else AllParameters(elements[..|elements| - 1]) + elements[|elements| - 1].parameters
  }

  /** A parameter is listed when the manager associates a family parameter with it. */
  function IsAssociated<P>(manager: FamilyManager<P>): P -> bool
  {
    p => manager.associatedFamilyParameter(p).Some?
  }

  /** The listed pair: the parameter and its (non-null) family parameter. */
  function AssociationEntry<P>(manager: FamilyManager<P>): P -> Entry<(P, FamilyParameter)>
  {
    p =>
      var f := manager.associatedFamilyParameter(p);
      Entry((p, if f.Some? then f.value else FamilyParameter("")), None)
  }

  /** `GetAssociatedFamilyParameter`: the associated pairs over all parameters of all elements, in order, unlabelled. */
  method ResolveGetAssociatedFamilyParameter<P>(manager: FamilyManager<P>, elements: seq<Element<P>>)
    returns (r: Variant<(P, FamilyParameter)>)
    ensures r == Values(Sequences.Map(Sequences.Filter(AllParameters(elements), IsAssociated(manager)), AssociationEntry(manager)))
  {
    var variants := new Builder<(P, FamilyParameter)>(|elements|);
    for i := 0 to |elements|
      invariant !variants.consumed
      invariant variants.entries == Sequences.Map(Sequences.Filter(AllParameters(elements[..i]), IsAssociated(manager)), AssociationEntry(manager))
    {
      var element := elements[i];
      assert elements[..i + 1][..i] == elements[..i];
      assert AllParameters(elements[..i + 1]) == AllParameters(elements[..i]) + element.parameters;
      assert AllParameters(elements[..i]) + element.parameters[..0] == AllParameters(elements[..i]);
      for j := 0 to |element.parameters|
        invariant !variants.consumed
        invariant variants.entries ==
          Sequences.Map(Sequences.Filter(AllParameters(elements[..i]) + element.parameters[..j], IsAssociated(manager)), AssociationEntry(manager))
      {
        var parameter := element.parameters[j];
        var done := AllParameters(elements[..i]) + element.parameters[..j];
        assert done + [parameter] == AllParameters(elements[..i]) + element.parameters[..j + 1];
        FilterSnoc(done, parameter, IsAssociated(manager));
        var familyParameter := manager.associatedFamilyParameter(parameter);
        if familyParameter.Some? {
          Sequences.MapSnoc(Sequences.Filter(done, IsAssociated(manager)), parameter, AssociationEntry(manager));
          variants.Add((parameter, familyParameter.value));
        }
      }
      assert element.parameters[..|element.parameters|] == element.parameters;
    }
    assert elements[..|elements|] == elements;
    r := variants.Consume();
  }

  /** Filtering a sequence one item longer. */
  lemma FilterSnoc<T>(s: seq<T>, x: T, p: T -> bool)
    ensures Sequences.Filter(s + [x], p) == Sequences.Filter(s, p) + (if p(x) then [x] else [])
  {
    assert (s + [x])[..|s|] == s;
  }

  /** A parameter's pair is listed exactly when it belongs to some element and has an associated family parameter. */
  lemma AssociationListed<P>(manager: FamilyManager<P>, elements: seq<Element<P>>, p: P)
    ensures p in Sequences.Filter(AllParameters(elements), IsAssociated(manager)) <==>
      p in AllParameters(elements) && manager.associatedFamilyParameter(p).Some?
  {
    Sequences.FilterMembership(AllParameters(elements), IsAssociated(manager), p);
  }
}
