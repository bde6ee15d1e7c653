/**
 * `MepSystemDescriptor`: lists every section of an MEP system, once labelled by
 * section number and once by index; it replaces the element descriptor's table.
 */
module MepSystemDescriptor {
  import opened Wrappers
  import opened Engine
  import Text
  import ElementDescriptor

  /** A section of the system; only its `Number` shows up in labels. */
  datatype MepSection = MepSection(number: int)

  datatype Resolver = SectionByIndex | SectionByNumber

  /** `Resolve`: the two section getters; nothing else resolves. */
  function Resolve(target: string): (r: Resolution<Resolver>)
    ensures !r.Disabled?
    ensures r == Factory(SectionByIndex) <==> target == "GetSectionByIndex"
    ensures r == Factory(SectionByNumber) <==> target == "GetSectionByNumber"
  {
    match target
    case "GetSectionByIndex" => Factory(SectionByIndex)
    case "GetSectionByNumber" => Factory(SectionByNumber)
    case _ => Unresolved
  }

  /** The override does not fall back to the element descriptor. */
  lemma HidesElementResolvers(t: ElementDescriptor.Resolver)
    ensures Resolve(ElementDescriptor.MemberName(t)) == Unresolved
  {
  }

  /** `ResolveSectionByNumber`: sections 0..SectionsCount-1 by index, labelled "Number {section.Number}". */
  method ResolveSectionByNumber(sectionsCount: nat, sectionByIndex: int -> MepSection) returns (r: Variant<MepSection>)
    ensures r.Values? && |r.entries| == sectionsCount
    ensures forall k | 0 <= k < sectionsCount ::
      r.entries[k] == Entry(sectionByIndex(k), Some("Number " + Text.IntToString(sectionByIndex(k).number)))
  {
    var variants := new Builder<MepSection>(sectionsCount);
    for i := 0 to sectionsCount
      invariant !variants.consumed
      invariant |variants.entries| == i
      invariant forall k | 0 <= k < i ::
        variants.entries[k] == Entry(sectionByIndex(k), Some("Number " + Text.IntToString(sectionByIndex(k).number)))
    {
      var section := sectionByIndex(i);
      variants.AddLabelled(section, "Number " + Text.IntToString(section.number));
    }
    r := variants.Consume();
  }

  /** `ResolveSectionByIndex`: the same sections in the same order, labelled "Index {i}". */
  method ResolveSectionByIndex(sectionsCount: nat, sectionByIndex: int -> MepSection) returns (r: Variant<MepSection>)
    ensures r.Values? && |r.entries| == sectionsCount
    ensures forall k | 0 <= k < sectionsCount ::
      r.entries[k] == Entry(sectionByIndex(k), Some(IndexLabel(k)))
  {
    var variants := new Builder<MepSection>(sectionsCount);
    for i := 0 to sectionsCount
      invariant !variants.consumed
      invariant |variants.entries| == i
      invariant forall k | 0 <= k < i :: variants.entries[k] == Entry(sectionByIndex(k), Some(IndexLabel(k)))
    {
      var section := sectionByIndex(i);
      variants.AddLabelled(section, IndexLabel(i));
    }
    r := variants.Consume();
  }

  /** The label "Index {i}". */
  function IndexLabel(i: int): string
  {
    "Index " + Text.IntToString(i)
  }

  /** Different indices get different labels, so the by-index list never shows two sections alike. */
  lemma IndexLabelInjective(i: int, j: int)
    requires IndexLabel(i) == IndexLabel(j)
    ensures i == j
  {
    assert Text.IntToString(i) == IndexLabel(i)[6..];
    assert Text.IntToString(j) == IndexLabel(j)[6..];
    Text.IntToStringInjective(i, j);
  }

  /** `RegisterExtensions`: registers nothing. */
  method RegisterExtensions(manager: ExtensionManager)
    ensures manager.names == old(manager.names)
  {
  }
}
