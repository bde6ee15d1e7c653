/**
 * `MepSectionDescriptor`: per-element values of an MEP section, read for every
 * element id of the section; the segment length and main-path queries skip the ids
 * for which the host rejects the argument.
 */
module MepSectionDescriptor {
  import opened Wrappers
  import opened Host
  import opened Engine
  import Sequences

  /** What a host query does for one id: return a value or throw. */
  datatype Outcome<T> = Returns(value: T) | Raises(error: Exception)

  /** The section: its element ids and the per-id queries. */
  datatype MepSection<D> = MepSection(
    elementIds: seq<ElementId>,
    coefficient: ElementId -> D,
    pressureDrop: ElementId -> D,
    segmentLength: ElementId -> Outcome<D>,
    isMain: ElementId -> Outcome<bool>)

  datatype Resolver = SectionIds | Coefficient | PressureDrop | SegmentLength | IsMain

  /** `Resolve`: the five per-section queries; other names are not resolved. */
  function Resolve(target: string): (r: Resolution<Resolver>)
    ensures !r.Disabled?
    ensures r == Factory(SectionIds) <==> target == "GetElementIds"
    ensures r == Factory(Coefficient) <==> target == "GetCoefficient"
    ensures r == Factory(PressureDrop) <==> target == "GetPressureDrop"
    ensures r == Factory(SegmentLength) <==> target == "GetSegmentLength"
    ensures r == Factory(IsMain) <==> target == "IsMain"
  {
    match target
    case "GetElementIds" => Factory(SectionIds)
    case "GetCoefficient" => Factory(Coefficient)
    case "GetPressureDrop" => Factory(PressureDrop)
    case "GetSegmentLength" => Factory(SegmentLength)
    case "IsMain" => Factory(IsMain)
    case _ => Unresolved
  }

  /** `$"ID{id}"`. */
  function IdLabel(id: ElementId): string
  {
    "ID" + IdToString(id)
  }

  /** `GetElementIds`: every element id of the section, in order, unlabelled. */
  method ResolveSectionIds<D>(section: MepSection<D>) returns (r: Variant<ElementId>)
    ensures r.Values? && |r.entries| == |section.elementIds|
    ensures forall k | 0 <= k < |section.elementIds| :: r.entries[k] == Entry(section.elementIds[k], None)
  {
    var elementIds := section.elementIds;
    var variants := new Builder<ElementId>(|elementIds|);
    for i := 0 to |elementIds|
      invariant !variants.consumed && |variants.entries| == i
      invariant forall k | 0 <= k < i :: variants.entries[k] == Entry(elementIds[k], None)
    {
      variants.Add(elementIds[i]);
    }
    r := variants.Consume();
  }

  /** A query that cannot fail, read for every id and labelled "ID{id}" (GetCoefficient, GetPressureDrop). */
  method ResolvePerId<T>(elementIds: seq<ElementId>, query: ElementId -> T) returns (r: Variant<T>)
    ensures r.Values? && |r.entries| == |elementIds|
    ensures forall k | 0 <= k < |elementIds| :: r.entries[k] == Entry(query(elementIds[k]), Some(IdLabel(elementIds[k])))
  {
    var variants := new Builder<T>(|elementIds|);
    for i := 0 to |elementIds|
      invariant !variants.consumed && |variants.entries| == i
      invariant forall k | 0 <= k < i :: variants.entries[k] == Entry(query(elementIds[k]), Some(IdLabel(elementIds[k])))
    {
      var id := elementIds[i];
      variants.AddLabelled(query(id), IdLabel(id));
    }
    r := variants.Consume();
  }

  /** Only the host's argument exception is caught and ignored. */
  predicate Swallowed(e: Exception)
  {
    e.kind == HostArgumentException
  }

  /** The query escapes the resolver for this id: it throws something other than the host's argument exception. */
  function Escapes<T>(query: ElementId -> Outcome<T>): ElementId -> bool
  {
    id => query(id).Raises? && !Swallowed(query(id).error)
  }

  /** The query answers for this id. */
  function Answers<T>(query: ElementId -> Outcome<T>): ElementId -> bool
  {
    id => query(id).Returns?
  }

  /** The entries for the ids the query answers, in id order, each labelled "ID{id}". */
  function Answered<T>(elementIds: seq<ElementId>, query: ElementId -> Outcome<T>): (r: seq<Entry<T>>)
    ensures var kept := Sequences.Filter(elementIds, Answers(query));
      |r| == |kept| &&
      forall k | 0 <= k < |r| :: query(kept[k]) == Returns(r[k].value) && r[k].caption == Some(IdLabel(kept[k]))
  {
    if elementIds == [] then [] else
      var last := elementIds[|elementIds| - 1];
      Answered(elementIds[..|elementIds| - 1], query) +
        match query(last)
        case Returns(v) => [Entry(v, Some(IdLabel(last)))]
        case Raises(_) => []
  }

  /** The first id whose query escapes raises `e`, after every earlier id either answered or was skipped. */
  predicate FirstEscape<T>(elementIds: seq<ElementId>, query: ElementId -> Outcome<T>, e: Exception)
  {
    exists k | 0 <= k < |elementIds| ::
      query(elementIds[k]) == Raises(e) && !Swallowed(e) &&
      forall j | 0 <= j < k :: !Escapes(query)(elementIds[j])
  }

  /**
   * A query that may throw, read inside `try … catch (ArgumentException)` for every id
   * (GetSegmentLength, IsMain): ids it rejects are skipped, any other exception escapes.
   */
  method ResolveSkippingRejected<T>(elementIds: seq<ElementId>, query: ElementId -> Outcome<T>)
    returns (r: Result<Variant<T>, Exception>)
    ensures r.Failure? <==> exists k | 0 <= k < |elementIds| :: Escapes(query)(elementIds[k])
    ensures r.Failure? ==> FirstEscape(elementIds, query, r.error)
    ensures r.Success? ==> r.value == Values(Answered(elementIds, query))
  {
    var variants := new Builder<T>(|elementIds|);
    for i := 0 to |elementIds|
      invariant !variants.consumed
      invariant forall j | 0 <= j < i :: !Escapes(query)(elementIds[j])
      invariant variants.entries == Answered(elementIds[..i], query)
    {
      var id := elementIds[i];
      assert elementIds[..i + 1][..i] == elementIds[..i];
      var outcome := query(id);
      match outcome {
        case Returns(value) =>
          variants.AddLabelled(value, IdLabel(id));
        case Raises(e) =>
          if !Swallowed(e) {
            assert Escapes(query)(elementIds[i]);
            return Failure(e);
          }
      }
    }
    assert elementIds[..|elementIds|] == elementIds;
    var result := variants.Consume();
    return Success(result);
  }

  /** `GetCoefficient`: the coefficient of every element of the section. */
  method ResolveCoefficient<D>(section: MepSection<D>) returns (r: Variant<D>)
    ensures r.Values? && |r.entries| == |section.elementIds|
    ensures forall k | 0 <= k < |section.elementIds| ::
      r.entries[k] == Entry(section.coefficient(section.elementIds[k]), Some(IdLabel(section.elementIds[k])))
  {
    r := ResolvePerId(section.elementIds, section.coefficient);
  }

  /** `GetPressureDrop`: the pressure drop of every element of the section. */
  method ResolvePressureDrop<D>(section: MepSection<D>) returns (r: Variant<D>)
    ensures r.Values? && |r.entries| == |section.elementIds|
    ensures forall k | 0 <= k < |section.elementIds| ::
      r.entries[k] == Entry(section.pressureDrop(section.elementIds[k]), Some(IdLabel(section.elementIds[k])))
  {
    r := ResolvePerId(section.elementIds, section.pressureDrop);
  }

  /** `GetSegmentLength`: the segment length of every element that has one. */
  method ResolveSegmentLength<D>(section: MepSection<D>) returns (r: Result<Variant<D>, Exception>)
    ensures r.Failure? <==> exists k | 0 <= k < |section.elementIds| :: Escapes(section.segmentLength)(section.elementIds[k])
    ensures r.Failure? ==> FirstEscape(section.elementIds, section.segmentLength, r.error)
    ensures r.Success? ==> r.value == Values(Answered(section.elementIds, section.segmentLength))
  {
    r := ResolveSkippingRejected(section.elementIds, section.segmentLength);
  }

  /** `IsMain`: whether each element lies on the main path, for the elements the host accepts. */
  method ResolveIsMain<D>(section: MepSection<D>) returns (r: Result<Variant<bool>, Exception>)
    ensures r.Failure? <==> exists k | 0 <= k < |section.elementIds| :: Escapes(section.isMain)(section.elementIds[k])
    ensures r.Failure? ==> FirstEscape(section.elementIds, section.isMain, r.error)
    ensures r.Success? ==> r.value == Values(Answered(section.elementIds, section.isMain))
  {
    r := ResolveSkippingRejected(section.elementIds, section.isMain);
  }

  /** An id is listed exactly when it is in the section and the query answers for it; ids keep their order. */
  lemma RejectedIdsSkipped<T>(elementIds: seq<ElementId>, query: ElementId -> Outcome<T>, id: ElementId)
    ensures id in Sequences.Filter(elementIds, Answers(query)) <==> id in elementIds && query(id).Returns?
    ensures Sequences.IsSubsequence(Sequences.Filter(elementIds, Answers(query)), elementIds)
  {
    Sequences.FilterMembership(elementIds, Answers(query), id);
    Sequences.FilterIsSubsequence(elementIds, Answers(query));
  }

  /** When the host rejects no id, every id is listed. */
  lemma NothingRejected<T>(elementIds: seq<ElementId>, query: ElementId -> Outcome<T>)
    requires forall k | 0 <= k < |elementIds| :: query(elementIds[k]).Returns?
    ensures Sequences.Filter(elementIds, Answers(query)) == elementIds
  {
    Sequences.FilterAll(elementIds, Answers(query));
  }
}
