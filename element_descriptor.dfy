/**
 * The summary `ElementDescriptor`: the display name of an element, the table that
 * maps an element member to the resolver producing its variants, those resolvers,
 * and the extension members it registers.
 */
module ElementDescriptor {
  import opened Wrappers
  import opened Engine
  import opened Host
  import opened Sequences

  /** The display name: "ID{id}" for an unnamed element, "{name}, ID{id}" otherwise. */
  function Name(elementName: string, id: ElementId): (r: string)
    ensures elementName == "" ==> r == "ID" + IdToString(id)
    ensures elementName != "" ==> |elementName| < |r| && r[..|elementName|] == elementName
    ensures elementName != "" ==> r[|elementName|..] == ", ID" + IdToString(id)
  {
    if elementName == "" then "ID" + IdToString(id) else elementName + ", ID" + IdToString(id)
  }

  /** The display name always ends with the id, so two elements with different ids never look alike. */
  lemma NameEndsWithId(elementName: string, id: ElementId)
    ensures var r := Name(elementName, id); var tail := "ID" + IdToString(id);
      |tail| <= |r| && r[|r| - |tail|..] == tail
  {
    var r, tail := Name(elementName, id), "ID" + IdToString(id);
    if elementName != "" {
      assert r == (elementName + ", ") + tail;
    }
  }

  /** The local resolver functions of `Resolve`, one per resolved member. */
  datatype Resolver =
    | CanBeHidden | IsHidden | GetDependentElements | GetMaterialIds | GetMaterialArea
    | GetMaterialVolume | GetEntity | GetPhaseStatus | IsPhaseCreatedValid | IsPhaseDemolishedValid
    | IsDemolishedPhaseOrderValid | IsCreatedPhaseOrderValid | BoundingBox | Geometry

  /** The member name each resolver is registered under. */
  function MemberName(t: Resolver): string
  {
    match t
    case CanBeHidden => "CanBeHidden"
    case IsHidden => "IsHidden"
    case GetDependentElements => "GetDependentElements"
    case GetMaterialIds => "GetMaterialIds"
    case GetMaterialArea => "GetMaterialArea"
    case GetMaterialVolume => "GetMaterialVolume"
    case GetEntity => "GetEntity"
    case GetPhaseStatus => "GetPhaseStatus"
    case IsPhaseCreatedValid => "IsPhaseCreatedValid"
    case IsPhaseDemolishedValid => "IsPhaseDemolishedValid"
    case IsDemolishedPhaseOrderValid => "IsDemolishedPhaseOrderValid"
    case IsCreatedPhaseOrderValid => "IsCreatedPhaseOrderValid"
    case BoundingBox => "BoundingBox"
    case Geometry => "Geometry"
  }

  /** `Resolve(target, parameters)`: the parameters play no part; unlisted names give null. */
  function Resolve(target: string): (r: Resolution<Resolver>)
    ensures r.Unresolved? || r.Factory?
    ensures r.Factory? ==> MemberName(r.resolver) == target
  {
    match target
    case "CanBeHidden" => Factory(CanBeHidden)
    case "IsHidden" => Factory(IsHidden)
    case "GetDependentElements" => Factory(GetDependentElements)
    case "GetMaterialIds" => Factory(GetMaterialIds)
    case "GetMaterialArea" => Factory(GetMaterialArea)
    case "GetMaterialVolume" => Factory(GetMaterialVolume)
    case "GetEntity" => Factory(GetEntity)
    case "GetPhaseStatus" => Factory(GetPhaseStatus)
    case "IsPhaseCreatedValid" => Factory(IsPhaseCreatedValid)
    case "IsPhaseDemolishedValid" => Factory(IsPhaseDemolishedValid)
    case "IsDemolishedPhaseOrderValid" => Factory(IsDemolishedPhaseOrderValid)
    case "IsCreatedPhaseOrderValid" => Factory(IsCreatedPhaseOrderValid)
    case "BoundingBox" => Factory(BoundingBox)
    case "Geometry" => Factory(Geometry)
    case _ => Unresolved
  }

  /** Every resolver is reachable: its member name resolves to it. */
  lemma ResolveMemberName(t: Resolver)
    ensures Resolve(MemberName(t)) == Factory(t)
  {
  }

  /**
   * `Variants.Value(element.CanBeHidden(activeView), "Active view")`; IsHidden alike:
   * the host's answer for the active view, as one value labelled with that view.
   */
  function ResolveInActiveView(result: bool): (r: Variant<bool>)
    ensures r.Single? && r.entry == Entry(result, Some("Active view"))
  {
    LabelledValue(result, "Active view")
  }

  /**
   * `GetDependentElements`: the host query asked with a null filter, which means
   * every dependent element, shown as one unlabelled value.
   */
  function ResolveGetDependentElements<F, E>(dependentElements: Option<F> -> E): (r: Variant<E>)
    ensures r.Single? && r.entry == Entry(dependentElements(None), None)
  {
    Value(dependentElements(None))
  }

  /** `GetMaterialIds`: paint materials first, then geometry and compound-structure materials. */
  function ResolveGetMaterialIds(materialIds: bool -> seq<ElementId>): (r: Variant<seq<ElementId>>)
    ensures r.Values? && |r.entries| == 2
    ensures r.entries[0] == Entry(materialIds(true), Some("Paint materials"))
    ensures r.entries[1] == Entry(materialIds(false), Some("Geometry and compound structure materials"))
  {
    Values([Entry(materialIds(true), Some("Paint materials")),
            Entry(materialIds(false), Some("Geometry and compound structure materials"))])
  }

  /** `BoundingBox`: the model box (no view) before the active-view box. */
  function ResolveBoundingBox<B>(boundingBox: bool -> B): (r: Variant<B>)
    ensures r.Values? && |r.entries| == 2
    ensures r.entries[0] == Entry(boundingBox(false), Some("Model"))
    ensures r.entries[1] == Entry(boundingBox(true), Some("Active view"))
  {
    Values([Entry(boundingBox(false), Some("Model")), Entry(boundingBox(true), Some("Active view"))])
  }

  datatype DetailLevel = Coarse | Fine | Medium | Undefined

  /** The `Options` a geometry request is made with; `inActiveView` stands for `View = ActiveView`. */
  datatype GeometryOptions = GeometryOptions(
    inActiveView: bool, detailLevel: Option<DetailLevel>, includeNonVisibleObjects: bool, computeReferences: bool)

  /** The ten geometry requests, in the order `ResolveGeometry` makes them, with their labels. */
  const GeometryRequests: seq<(GeometryOptions, string)> := [
    (GeometryOptions(true, None, false, true), "Active view"),
    (GeometryOptions(true, None, true, true), "Active view, including non-visible objects"),
    (GeometryOptions(false, Some(Coarse), false, true), "Model, coarse detail level"),
    (GeometryOptions(false, Some(Fine), false, true), "Model, fine detail level"),
    (GeometryOptions(false, Some(Medium), false, true), "Model, medium detail level"),
    (GeometryOptions(false, Some(Undefined), false, true), "Model, undefined detail level"),
    (GeometryOptions(false, Some(Coarse), true, true), "Model, coarse detail level, including non-visible objects"),
    (GeometryOptions(false, Some(Fine), true, true), "Model, fine detail level, including non-visible objects"),
    (GeometryOptions(false, Some(Medium), true, true), "Model, medium detail level, including non-visible objects"),
    (GeometryOptions(false, Some(Undefined), true, true), "Model, undefined detail level, including non-visible objects")
  ]

  /** `Geometry`: `get_Geometry` under each of the ten option sets, labelled. */
  function ResolveGeometry<G>(geometry: GeometryOptions -> G): (r: Variant<G>)
    ensures r.Values? && |r.entries| == 10
    ensures forall k | 0 <= k < 10 ::
      r.entries[k] == Entry(geometry(GeometryRequests[k].0), Some(GeometryRequests[k].1))
  {
    Values(seq(10, k requires 0 <= k < 10 => Entry(geometry(GeometryRequests[k].0), Some(GeometryRequests[k].1))))
  }

  /**
   * The ten requests are all different, their labels are all different, every one
   * computes references, and exactly the first two look through the active view
   * (which is why they set no detail level).
   */
  lemma GeometryRequestsDistinct()
    ensures forall i, j | 0 <= i < j < 10 :: GeometryRequests[i].0 != GeometryRequests[j].0
    ensures forall i, j | 0 <= i < j < 10 :: GeometryRequests[i].1 != GeometryRequests[j].1
    ensures forall i | 0 <= i < 10 :: GeometryRequests[i].0.computeReferences
    ensures forall i | 0 <= i < 10 :: GeometryRequests[i].0.inActiveView <==> i < 2
    ensures forall i | 0 <= i < 10 :: GeometryRequests[i].0.detailLevel.None? <==> i < 2
  {
  }

  /** `GetMaterialArea`: geometry materials, then paint materials, each with its area; Empty when there are none. */
  method ResolveGetMaterialArea(geometryMaterials: seq<ElementId>, paintMaterials: seq<ElementId>,
                                area: (ElementId, bool) -> real)
    returns (r: Variant<(ElementId, real)>)
    ensures r.Empty? <==> geometryMaterials == [] && paintMaterials == []
    ensures !r.Empty? ==> r.Values? && |r.entries| == |geometryMaterials| + |paintMaterials|
    ensures !r.Empty? ==> forall k | 0 <= k < |geometryMaterials| ::
      r.entries[k] == Entry((geometryMaterials[k], area(geometryMaterials[k], false)), None)
    ensures !r.Empty? ==> forall k | 0 <= k < |paintMaterials| ::
      r.entries[|geometryMaterials| + k] == Entry((paintMaterials[k], area(paintMaterials[k], true)), None)
  {
    var capacity := |geometryMaterials| + |paintMaterials|;
    if capacity == 0 {
      return Empty;
    }
    var variants := new Builder<(ElementId, real)>(capacity);
    for i := 0 to |geometryMaterials|
      invariant !variants.consumed
      invariant |variants.entries| == i
      invariant forall k | 0 <= k < i ::
        variants.entries[k] == Entry((geometryMaterials[k], area(geometryMaterials[k], false)), None)
    {
      variants.Add((geometryMaterials[i], area(geometryMaterials[i], false)));
    }
    for i := 0 to |paintMaterials|
      invariant !variants.consumed
      invariant |variants.entries| == |geometryMaterials| + i
      invariant forall k | 0 <= k < |geometryMaterials| ::
        variants.entries[k] == Entry((geometryMaterials[k], area(geometryMaterials[k], false)), None)
      invariant forall k | 0 <= k < i ::
        variants.entries[|geometryMaterials| + k] == Entry((paintMaterials[k], area(paintMaterials[k], true)), None)
    {
      variants.Add((paintMaterials[i], area(paintMaterials[i], true)));
    }
    r := variants.Consume();
  }

  /** `GetMaterialVolume`: one entry per geometry material, in order; Empty when there are none. */
  method ResolveGetMaterialVolume(geometryMaterials: seq<ElementId>, volume: ElementId -> real)
    returns (r: Variant<(ElementId, real)>)
    ensures r.Empty? <==> geometryMaterials == []
    ensures !r.Empty? ==> r.Values? && |r.entries| == |geometryMaterials|
    ensures !r.Empty? ==> forall k | 0 <= k < |geometryMaterials| ::
      r.entries[k] == Entry((geometryMaterials[k], volume(geometryMaterials[k])), None)
  {
    if |geometryMaterials| == 0 {
      return Empty;
    }
    var variants := new Builder<(ElementId, real)>(|geometryMaterials|);
    for i := 0 to |geometryMaterials|
      invariant !variants.consumed
      invariant |variants.entries| == i
      invariant forall k | 0 <= k < i ::
        variants.entries[k] == Entry((geometryMaterials[k], volume(geometryMaterials[k])), None)
    {
      variants.Add((geometryMaterials[i], volume(geometryMaterials[i])));
    }
    r := variants.Consume();
  }

  /** An extensible-storage schema as `Schema.ListSchemas()` lists it. */
  datatype Schema = Schema(schemaName: string, readAccessGranted: bool)

  /** An entity as `element.GetEntity(schema)` returns it. */
  datatype Entity = Entity(schema: Schema, isValid: bool)

  /** The schemas whose entity `GetEntity` shows: readable ones with a valid entity. */
  predicate ShowsEntity(getEntity: Schema -> Entity, s: Schema)
  {
    s.readAccessGranted && getEntity(s).isValid
  }

  /** `ShowsEntity` as a test on schemas. */
  function EntityShown(getEntity: Schema -> Entity): Schema -> bool
  {
    s => ShowsEntity(getEntity, s)
  }

  /** The entry for a schema: its entity, labelled with the schema name. */
  function EntityEntry(getEntity: Schema -> Entity): Schema -> Entry<Entity>
  {
    s => Entry(getEntity(s), Some(s.schemaName))
  }

  /** `GetEntity`: the valid entities of the readable schemas, labelled by schema name, in schema order. */
  method ResolveGetEntity(schemas: seq<Schema>, getEntity: Schema -> Entity) returns (r: Variant<Entity>)
    ensures r == Values(Map(Filter(schemas, EntityShown(getEntity)), EntityEntry(getEntity)))
  {
    ghost var keep := EntityShown(getEntity);
    ghost var entry := EntityEntry(getEntity);
    var variants := new Builder<Entity>(|schemas|);
    for i := 0 to |schemas|
      invariant !variants.consumed
      invariant variants.entries == Map(Filter(schemas[..i], keep), entry)
    {
      FilterPrefix(schemas, i, keep);
      var schema := schemas[i];
      if !schema.readAccessGranted {
        continue;
      }
      var entity := getEntity(schema);
      if !entity.isValid {
        continue;
      }
      MapSnoc(Filter(schemas[..i], keep), schema, entry);
      variants.AddLabelled(entity, schema.schemaName);
    }
    assert schemas[..|schemas|] == schemas;
    r := variants.Consume();
  }

  /** An entity is shown exactly when its schema is listed, readable and gives a valid entity. */
  lemma GetEntityShows(schemas: seq<Schema>, getEntity: Schema -> Entity, s: Schema)
    ensures s in Filter(schemas, EntityShown(getEntity)) <==> s in schemas && ShowsEntity(getEntity, s)
  {
    FilterMembership(schemas, EntityShown(getEntity), s);
  }

  /** A phase of the document, as `Document.Phases` lists it. */
  datatype Phase = Phase(phaseId: ElementId, phaseName: string)

  /**
   * The five phase resolvers (`GetPhaseStatus`, `IsPhaseCreatedValid`,
   * `IsPhaseDemolishedValid`, `IsCreatedPhaseOrderValid`, `IsDemolishedPhaseOrderValid`):
   * `query` is the element method asked for each phase, `show` the `ToString` of its result.
   */
  method ResolvePhases<S>(phases: seq<Phase>, query: ElementId -> S, show: S -> string) returns (r: Variant<S>)
    ensures r.Values? && |r.entries| == |phases|
    ensures forall k | 0 <= k < |phases| ::
      r.entries[k] == Entry(query(phases[k].phaseId), Some(phases[k].phaseName + ": " + show(query(phases[k].phaseId))))
  {
    var variants := new Builder<S>(|phases|);
    for i := 0 to |phases|
      invariant !variants.consumed
      invariant |variants.entries| == i
      invariant forall k | 0 <= k < i ::
        variants.entries[k] == Entry(query(phases[k].phaseId), Some(phases[k].phaseName + ": " + show(query(phases[k].phaseId))))
    {
      var phase := phases[i];
      var result := query(phase.phaseId);
      variants.AddLabelled(result, phase.phaseName + ": " + show(result));
    }
    r := variants.Consume();
  }

  /** The extension members `RegisterExtensions` adds, in registration order. */
  const ExtensionNames: seq<string> := [
    "CanBeMirrored", "GetJoinedElements", "GetCuttingSolids", "GetSolidsBeingCut",
    "IsAllowedForSolidCut", "IsElementFromAppropriateContext", "GetCheckoutStatus",
    "GetWorksharingTooltipInfo", "GetModelUpdatesStatus", "AreElementsValidForCreateParts"
  ]

  /** `RegisterExtensions`: registers the ten element extensions, in order. */
  method RegisterExtensions(manager: ExtensionManager)
    modifies manager
    ensures manager.names == old(manager.names) + ExtensionNames
  {
    manager.Register("CanBeMirrored");
    manager.Register("GetJoinedElements");
    manager.Register("GetCuttingSolids");
    manager.Register("GetSolidsBeingCut");
    manager.Register("IsAllowedForSolidCut");
    manager.Register("IsElementFromAppropriateContext");
    manager.Register("GetCheckoutStatus");
    manager.Register("GetWorksharingTooltipInfo");
    manager.Register("GetModelUpdatesStatus");
    manager.Register("AreElementsValidForCreateParts");
  }
}
