/**
 * `DocumentDescriptor` (the earlier component model): a document shown by its
 * title, with `Close` disabled, plan topologies computed only for a writable
 * document, the default type of every element type group, the unused-element
 * queries and the document-level extensions.
 */
module DocumentDescriptor {
  import opened Wrappers
  import opened Host
  import opened Engine
  import opened Sequences

  /** The document as the descriptor reads it; the host queries are uninterpreted functions. */
  datatype Document<P, U> = Document(
    title: string,
    isReadOnly: bool,
    isFamilyDocument: bool,
    planTopologies: P,
    defaultElementTypeId: EnumMember -> Option<ElementId>,
    elementName: ElementId -> Option<string>,
    unusedElements: set<ElementId> -> U,
    allUnusedElements: set<ElementId> -> U)

  /** `Name`: the document title. */
  function Name<P, U>(d: Document<P, U>): (r: string)
    ensures r == d.title
  {
    d.title
  }

  datatype Resolver = PlanTopologies | DefaultElementTypeId | GetUnusedElements | GetAllUnusedElements

  /** `Resolve(context, target, parameters)`: the parameterless overloads of Close and PlanTopologies, and the three queries. */
  function Resolve(target: string, parameters: seq<ParamType>): (r: Resolution<Resolver>)
    ensures r.Disabled? <==> target == "Close" && parameters == []
    ensures r == Factory(PlanTopologies) <==> target == "PlanTopologies" && parameters == []
    ensures r == Factory(DefaultElementTypeId) <==> target == "GetDefaultElementTypeId"
    ensures r == Factory(GetUnusedElements) <==> target == "GetUnusedElements"
    ensures r == Factory(GetAllUnusedElements) <==> target == "GetAllUnusedElements"
  {
    if target == "Close" && |parameters| == 0 then Disabled
    else if target == "PlanTopologies" && |parameters| == 0 then Factory(PlanTopologies)
    else if target == "GetDefaultElementTypeId" then Factory(DefaultElementTypeId)
    else if target == "GetUnusedElements" then Factory(GetUnusedElements)
    else if target == "GetAllUnusedElements" then Factory(GetAllUnusedElements)
    else Unresolved
  }

  /** Plan topologies: nothing for a read-only document (they cannot be regenerated there), otherwise the one set. */
  function ResolvePlanTopologies<P, U>(d: Document<P, U>): (r: Variant<P>)
    ensures r.Empty? <==> d.isReadOnly
    ensures !d.isReadOnly ==> r.Single? && r.entry.value == d.planTopologies && r.entry.caption == None
  {
    if d.isReadOnly then Empty else Value(d.planTopologies)
  }

  /**
   * GetUnusedElements: the query with an empty exclusion set, as a single value. It runs
   * on the resolver's `context` document, which need not be the described one.
   */
  function ResolveGetUnusedElements<P, U>(context: Document<P, U>): (r: Variant<U>)
    ensures r.Single? && r.entry.value == context.unusedElements({}) && r.entry.caption == None
  {
    Value(context.unusedElements({}))
  }

  /** GetAllUnusedElements: the other host query, likewise on `context` with an empty exclusion set. */
  function ResolveGetAllUnusedElements<P, U>(context: Document<P, U>): (r: Variant<U>)
    ensures r.Single? && r.entry.value == context.allUnusedElements({}) && r.entry.caption == None
  {
    Value(context.allUnusedElements({}))
  }

  /** The two unused-element members show the same value exactly when the host's two queries agree. */
  lemma UnusedQueriesDistinct<P, U>(context: Document<P, U>)
    ensures ResolveGetUnusedElements(context) == ResolveGetAllUnusedElements(context)
      <==> context.unusedElements({}) == context.allUnusedElements({})
  {
  }

  /** The default type of a group is shown by name when it is a real id: looking the element up must then succeed. */
  predicate NamesElement(result: Option<ElementId>)
  {
    result.Some? && result.value != InvalidElementId
  }

  /** A group whose default type id is a real id that does not resolve to an element dereferences null. */
  function Throws<P, U>(d: Document<P, U>): EnumMember -> bool
  {
    g => NamesElement(d.defaultElementTypeId(g)) && d.elementName(d.defaultElementTypeId(g).value).None?
  }

  /** `{result}` of a possibly-null id: null prints as nothing. */
  function ShowId(result: Option<ElementId>): string
  {
    match result
    case None => ""
    case Some(id) => IdToString(id)
  }

  /** The entry for one group: the id, labelled with the group and either the element's name or the raw id. */
  function DefaultTypeEntry<P, U>(d: Document<P, U>): EnumMember -> Entry<Option<ElementId>>
  {
    g =>
      var result := d.defaultElementTypeId(g);
      if NamesElement(result) && d.elementName(result.value).Some? then
        Entry(result, Some(g.name + ": " + d.elementName(result.value).value))
      else
        Entry(result, Some(g.name + ": " + ShowId(result)))
  }

  /** The null dereference of `ToElement(document)!.Name`. */
  const NullDereference: Exception := Exception(NullReferenceException, "Object reference not set to an instance of an object.")

  /** Whether some group in `groups` has a default type that is a real id but no element. */
  predicate AnyThrows<P, U>(d: Document<P, U>, groups: seq<EnumMember>)
  {
    exists k | 0 <= k < |groups| :: Throws(d)(groups[k])
  }

  /**
   * GetDefaultElementTypeId: one entry per `ElementTypeGroup` value, in enum order;
   * the first group whose real default id names no element throws.
   */
  method ResolveDefaultElementTypeId<P, U>(d: Document<P, U>, groups: seq<EnumMember>)
    returns (r: Result<Variant<Option<ElementId>>, Exception>)
    ensures r.Failure? <==> AnyThrows(d, groups)
    ensures r.Failure? ==> r.error == NullDereference
    ensures r.Success? ==> r.value == Values(Map(groups, DefaultTypeEntry(d)))
  {
    var variants := new Builder<Option<ElementId>>(|groups|);
    for i := 0 to |groups|
      invariant !variants.consumed
      invariant forall k | 0 <= k < i :: !Throws(d)(groups[k])
      invariant variants.entries == Map(groups[..i], DefaultTypeEntry(d))
    {
      var value := groups[i];
      var result := d.defaultElementTypeId(value);
      MapSnoc(groups[..i], value, DefaultTypeEntry(d));
      assert groups[..i + 1] == groups[..i] + [value];
      if result.Some? && result.value != InvalidElementId {
        var name := d.elementName(result.value);
        if name.None? {
          return Failure(NullDereference);
        }
        variants.AddLabelled(result, value.name + ": " + name.value);
      } else {
        variants.AddLabelled(result, value.name + ": " + ShowId(result));
      }
    }
    assert groups[..|groups|] == groups;
    r := Success(Values(variants.entries));
  }

  /** A group whose default is null or invalid is labelled with the raw id; a real one, with the element's name. */
  lemma DefaultTypeLabel<P, U>(d: Document<P, U>, g: EnumMember)
    requires !Throws(d)(g)
    ensures var result := d.defaultElementTypeId(g);
      DefaultTypeEntry(d)(g).value == result &&
      DefaultTypeEntry(d)(g).caption == Some(g.name + ": " +
        if NamesElement(result) then d.elementName(result.value).value else ShowId(result))
  {
  }

  /** The extensions every document gets, in registration order. */
  const CommonExtensions: seq<string> := [
    "GetAllGlobalParameters", "GetLightGroupManager", "GetMacroManager",
    "GetTemporaryGraphicsManager", "GetAnalyticalToPhysicalAssociationManager"]

  /** The extensions only a family document gets. */
  const FamilyExtensions: seq<string> := ["CreateFamilySizeTableManager", "GetLightFamily"]

  function ExtensionNames(isFamilyDocument: bool): (r: seq<string>)
    ensures "CreateFamilySizeTableManager" in r <==> isFamilyDocument
    ensures "GetLightFamily" in r <==> isFamilyDocument
    ensures |r| >= |CommonExtensions| && r[..|CommonExtensions|] == CommonExtensions
  {
    CommonExtensions + (if isFamilyDocument then FamilyExtensions else [])
  }

  /** `RegisterExtensions`: the document-level managers, then the family-only ones. */
  method RegisterExtensions<P, U>(d: Document<P, U>, manager: ExtensionManager)
    modifies manager
    ensures manager.names == old(manager.names) + ExtensionNames(d.isFamilyDocument)
  {
    manager.Register("GetAllGlobalParameters");
    manager.Register("GetLightGroupManager");
    manager.Register("GetMacroManager");
    manager.Register("GetTemporaryGraphicsManager");
    manager.Register("GetAnalyticalToPhysicalAssociationManager");
    if d.isFamilyDocument {
      manager.Register("CreateFamilySizeTableManager");
      manager.Register("GetLightFamily");
    }
  }
}
