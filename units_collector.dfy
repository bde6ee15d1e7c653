/**
 * `UnitsCollector`: the lists behind the units browser — every built-in
 * parameter, every built-in category, and every Forge type id the API exposes
 * as a static property — each entry with its identifier, its display label and
 * the value the browser decomposes.
 */
module UnitsCollector {
  import opened Wrappers
  import opened Host
  import Text
  import Sequences

  /** What a units entry decomposes: the enumeration member itself, or the qualified name of a type id property. */
  datatype UnitValue = BuiltInParameterValue(parameter: EnumMember) | BuiltInCategoryValue(category: EnumMember) | ClassNameValue(className: string)

  /** `UnitInfo`. */
  datatype UnitInfo = UnitInfo(unit: string, labelText: string, value: UnitValue)

  // ------------------------------------------------------------ enumerations

  /** The label lookup (`ToLabel()`) succeeded for this member. */
  function HasLabel(toLabel: EnumMember -> Result<string, Exception>): EnumMember -> bool
  {
    (member: EnumMember) => toLabel(member).Success?
  }

  /** The entry for a member whose label was found. */
  function EnumEntry(toLabel: EnumMember -> Result<string, Exception>, wrap: EnumMember -> UnitValue): EnumMember -> UnitInfo
  {
    (member: EnumMember) => UnitInfo(member.name, if toLabel(member).Success? then toLabel(member).value else "", wrap(member))
  }

  /** The entries of a collector: one per member with a label, in enumeration order. */
  function EnumEntries(members: seq<EnumMember>, toLabel: EnumMember -> Result<string, Exception>, wrap: EnumMember -> UnitValue): seq<UnitInfo>
  {
    Sequences.Map(Sequences.Filter(members, HasLabel(toLabel)), EnumEntry(toLabel, wrap))
  }

  /**
   * The collector loop shared by the parameter and category lists: one entry per
   * enumeration member, skipping a member whose label lookup throws.
   */
  method CollectEnum(members: seq<EnumMember>, toLabel: EnumMember -> Result<string, Exception>, wrap: EnumMember -> UnitValue)
    returns (result: seq<UnitInfo>)
    ensures result == EnumEntries(members, toLabel, wrap)
  {
    result := [];
    for i := 0 to |members|
      invariant result == EnumEntries(members[..i], toLabel, wrap)
    {
      Sequences.FilterPrefix(members, i, HasLabel(toLabel));
      var found := toLabel(members[i]);
      if found.Success? {
        Sequences.MapSnoc(Sequences.Filter(members[..i], HasLabel(toLabel)), members[i], EnumEntry(toLabel, wrap));
        result := result + [UnitInfo(members[i].name, found.value, wrap(members[i]))];
      } else {
        assert Sequences.Filter(members[..i + 1], HasLabel(toLabel)) + [] == Sequences.Filter(members[..i + 1], HasLabel(toLabel));
      }
    }
    assert members[..|members|] == members;
  }

  function AsParameter(member: EnumMember): UnitValue { BuiltInParameterValue(member) }
  function AsCategory(member: EnumMember): UnitValue { BuiltInCategoryValue(member) }

  /** `GetBuiltinParametersInfo`: `parameters` is `Enum.GetValues(typeof(BuiltInParameter))`. */
  method GetBuiltinParametersInfo(parameters: seq<EnumMember>, toLabel: EnumMember -> Result<string, Exception>)
    returns (result: seq<UnitInfo>)
    ensures result == EnumEntries(parameters, toLabel, AsParameter)
  {
    result := CollectEnum(parameters, toLabel, AsParameter);
  }

  /** `GetBuiltinCategoriesInfo`: `categories` is `Enum.GetValues(typeof(BuiltInCategory))`. */
  method GetBuiltinCategoriesInfo(categories: seq<EnumMember>, toLabel: EnumMember -> Result<string, Exception>)
    returns (result: seq<UnitInfo>)
    ensures result == EnumEntries(categories, toLabel, AsCategory)
  {
    result := CollectEnum(categories, toLabel, AsCategory);
  }

  /**
   * A member is listed exactly when its label lookup succeeds; every entry names
   * its member, carries its label and decomposes to the member itself; and the
   * entries never outnumber the members.
   */
  lemma {:induction false} EnumEntriesExact(members: seq<EnumMember>, toLabel: EnumMember -> Result<string, Exception>, member: EnumMember)
    ensures BuiltInParameterValue(member) in Sequences.Map(Sequences.Filter(members, HasLabel(toLabel)), (m: EnumMember) => BuiltInParameterValue(m))
      <==> member in members && toLabel(member).Success?
    ensures |EnumEntries(members, toLabel, AsParameter)| <= |members|
    ensures forall k | 0 <= k < |EnumEntries(members, toLabel, AsParameter)| ::
      var entry := EnumEntries(members, toLabel, AsParameter)[k];
      entry.value.BuiltInParameterValue? && entry.unit == entry.value.parameter.name
      && entry.value.parameter in members && toLabel(entry.value.parameter) == Success(entry.labelText)
  {
    var kept := Sequences.Filter(members, HasLabel(toLabel));
    Sequences.FilterMembership(members, HasLabel(toLabel), member);
    var values := Sequences.Map(kept, (m: EnumMember) => BuiltInParameterValue(m));
    if BuiltInParameterValue(member) in values {
      var k :| 0 <= k < |values| && values[k] == BuiltInParameterValue(member);
      assert kept[k] == member;
    }
    forall k | 0 <= k < |kept|
      ensures kept[k] in members
    {
      Sequences.FilterMembership(members, HasLabel(toLabel), kept[k]);
    }
  }

  /** The entries keep the enumeration order. */
  lemma EnumEntriesOrdered(members: seq<EnumMember>, toLabel: EnumMember -> Result<string, Exception>)
    ensures Sequences.IsSubsequence(Sequences.Filter(members, HasLabel(toLabel)), members)
  {
    Sequences.FilterIsSubsequence(members, HasLabel(toLabel));
  }

  // ------------------------------------------------------------ Forge type ids

  /** A reflected type: its name and, for a nested type, the type that declares it. */
  datatype TypeInfo = TypeInfo(typeName: string, declaringType: Option<TypeInfo>)

  /** A static property of a type id class: its name, its declaring type and the `ForgeTypeId.TypeId` it holds. */
  datatype PropertyInfo = PropertyInfo(propertyName: string, declaringType: TypeInfo, typeId: string)

  /** The names of a type and its declaring types, outermost first. */
  function Chain(t: TypeInfo): (r: seq<string>)
    ensures |r| >= 1 && r[|r| - 1] == t.typeName
  {
    match t.declaringType
    case None => [t.typeName]
    case Some(outer) => Chain(outer) + [t.typeName]
  }

  /** The outermost declaring type. */
  function Outermost(t: TypeInfo): (r: TypeInfo)
    ensures r.declaringType.None?
    ensures r.typeName == Chain(t)[0]
  {
    match t.declaringType
    case None => t
    case Some(outer) => Outermost(outer)
  }

  /** One more field at the end of a joined string. */
  lemma {:induction false} JoinSnoc(fields: seq<string>, field: string)
    requires |fields| >= 1
    ensures Text.Join(fields + [field], '.') == Text.Join(fields, '.') + "." + field
  {
    if |fields| > 1 {
      JoinSnoc(fields[1..], field);
      assert (fields + [field])[1..] == fields[1..] + [field];
    }
  }

  /** The qualified name of a property: its class chain, outermost first, then its own name, joined by dots. */
  function ClassName(property: PropertyInfo): string
  {
    Text.Join(Chain(property.declaringType) + [property.propertyName], '.')
  }

  /**
   * `GetClassName`: starts from "Type.Property" and, while the type is nested,
   * moves to the declaring type and puts its name and a dot in front.
   */
  method GetClassName(property: PropertyInfo) returns (r: string)
    ensures r == ClassName(property)
  {
    var t := property.declaringType;
    ghost var tail := "." + property.propertyName;
    r := t.typeName + "." + property.propertyName;
    JoinSnoc(Chain(t), property.propertyName);
    while t.declaringType.Some?
      invariant r == t.typeName + tail
      invariant Text.Join(Chain(t), '.') + tail == ClassName(property)
      decreases t
    {
      var outer := t.declaringType.value;
      JoinSnoc(Chain(outer), t.typeName);
      assert Text.Join(Chain(t), '.') + tail == Text.Join(Chain(outer), '.') + ("." + t.typeName + tail);
      tail := "." + t.typeName + tail;
      t := outer;
      r := t.typeName + "." + r;
    }
  }

  /** The label functions of `LabelUtils`, one per type id class the switch knows. */
  datatype LabelKind = UnitLabel | SpecLabel | SymbolLabel | ParameterLabel | GroupLabel | DisciplineLabel

  /** The switch on the outermost class name; with the 2022 API present all six arms exist. */
  function KindOf(className: string): (r: Option<LabelKind>)
    ensures r.Some? <==> className in {"UnitTypeId", "SpecTypeId", "SymbolTypeId", "ParameterTypeId", "GroupTypeId", "DisciplineTypeId"}
  {
    if className == "UnitTypeId" then Some(UnitLabel)
    else if className == "SpecTypeId" then Some(SpecLabel)
    else if className == "SymbolTypeId" then Some(SymbolLabel)
    else if className == "ParameterTypeId" then Some(ParameterLabel)
    else if className == "GroupTypeId" then Some(GroupLabel)
    else if className == "DisciplineTypeId" then Some(DisciplineLabel)
    else None
  }

  /** The label of a type id property; any exception, the unknown-class one included, gives "". */
  function Label(property: PropertyInfo, toLabel: (LabelKind, string) -> Result<string, Exception>): string
  {
    if property.typeId == "" then ""
    else if property.propertyName == "Custom" then ""
    else match KindOf(Outermost(property.declaringType).typeName)
      case None => ""
      case Some(kind) => if toLabel(kind, property.typeId).Success? then toLabel(kind, property.typeId).value else ""
  }

  /**
   * `GetLabel`: "" for an empty type id or the `Custom` property; otherwise walks
   * out to the outermost declaring type and asks the label function its name selects.
   */
  method GetLabel(property: PropertyInfo, toLabel: (LabelKind, string) -> Result<string, Exception>) returns (r: string)
    ensures r == Label(property, toLabel)
    ensures property.typeId == "" || property.propertyName == "Custom" ==> r == ""
    ensures KindOf(Chain(property.declaringType)[0]).None? ==> r == ""
    ensures r != "" ==> exists kind :: toLabel(kind, property.typeId) == Success(r)
  {
    if property.typeId == "" {
      return "";
    }
    if property.propertyName == "Custom" {
      return "";
    }
    var t := property.declaringType;
    while t.declaringType.Some?
      invariant Outermost(t) == Outermost(property.declaringType)
      decreases t
    {
      t := t.declaringType.value;
    }
    var kind := KindOf(t.typeName);
    if kind.None? {
      return "";
    }
    var found := toLabel(kind.value, property.typeId);
    r := if found.Success? then found.value else "";
  }

  /** The classes whose static properties are listed, in listing order (2022 API). */
  const ForgeClasses: seq<string> := [
    "UnitTypeId", "SpecTypeId", "SpecTypeId.Boolean", "SpecTypeId.String", "SpecTypeId.Int",
    "SpecTypeId.Reference", "ParameterTypeId", "GroupTypeId", "DisciplineTypeId", "SymbolTypeId"]

  /** The static properties of each class in turn. */
  function Collected(classes: seq<string>, propertiesOf: string -> seq<PropertyInfo>): seq<PropertyInfo>
  {
    if classes == [] then [] else Collected(classes[..|classes| - 1], propertiesOf) + propertiesOf(classes[|classes| - 1])
  }

  /** A collected property comes from one of the listed classes. */
  lemma {:induction false} CollectedFrom(classes: seq<string>, propertiesOf: string -> seq<PropertyInfo>, p: PropertyInfo)
    requires p in Collected(classes, propertiesOf)
    ensures exists c :: c in classes && p in propertiesOf(c)
  {
    var init := classes[..|classes| - 1];
    var last := classes[|classes| - 1];
    if p in Collected(init, propertiesOf) {
      CollectedFrom(init, propertiesOf, p);
      var c :| c in init && p in propertiesOf(c);
      assert c in classes;
    } else {
      assert p in propertiesOf(last);
    }
  }

  /** The entry of one Forge property. */
  function ForgeEntry(toLabel: (LabelKind, string) -> Result<string, Exception>): PropertyInfo -> UnitInfo
  {
    (property: PropertyInfo) => UnitInfo(property.typeId, Label(property, toLabel), ClassNameValue(ClassName(property)))
  }

  /** `GetForgeInfo`: one entry per collected property, in collection order. */
  function GetForgeInfo(propertiesOf: string -> seq<PropertyInfo>, toLabel: (LabelKind, string) -> Result<string, Exception>): (r: seq<UnitInfo>)
    ensures |r| == |Collected(ForgeClasses, propertiesOf)|
    ensures forall k | 0 <= k < |r| ::
      var property := Collected(ForgeClasses, propertiesOf)[k];
      r[k].unit == property.typeId && r[k].value == ClassNameValue(ClassName(property))
      && r[k].labelText == Label(property, toLabel)
      && (property.typeId == "" || property.propertyName == "Custom" ==> r[k].labelText == "")
  {
    Sequences.Map(Collected(ForgeClasses, propertiesOf), ForgeEntry(toLabel))
  }
}
