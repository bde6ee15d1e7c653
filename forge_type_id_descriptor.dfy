/**
 * `ForgeTypeIdDescriptor`: a unit, spec or symbol identifier shown by its type id,
 * with the unit-utility queries offered as extensions.
 */
module ForgeTypeIdDescriptor {
  import opened Engine

  /** `Name`: the `TypeId` string itself. */
  function Name(typeId: string): (r: string)
    ensures r == typeId
  {
    typeId
  }

  datatype Resolver = NoResolver

  /** `Resolve`: the parameterless `Clear` is disabled; its other overloads and all other members are not resolved. */
  function Resolve(target: string, parameters: seq<ParamType>): (r: Resolution<Resolver>)
    ensures !r.Factory?
    ensures r.Disabled? <==> target == "Clear" && parameters == []
  {
    if target == "Clear" && |parameters| == 0 then Disabled else Unresolved
  }

  /** The extensions every host version offers. */
  const BaseLabels: seq<string> := ["ToUnitLabel", "ToSpecLabel", "ToSymbolLabel"]
  const BaseQueries: seq<string> := ["IsUnit", "IsSymbol"]

  /** The extensions that need Revit 2022 or later. */
  const Labels2022: seq<string> := ["ToGroupLabel", "ToDisciplineLabel", "ToParameterLabel"]
  const Queries2022: seq<string> := ["IsSpec", "IsMeasurableSpec", "IsBuiltInParameter", "IsBuiltInGroup"]

  /** The registration order: base labels, 2022 labels, base queries, 2022 queries. */
  function ExtensionNames(): (r: seq<string>)
    ensures |r| == 12
    ensures |Labels2022| + |Queries2022| == 7
    ensures forall i, j | 0 <= i < j < |r| :: r[i] != r[j]
  {
    BaseLabels + Labels2022 + BaseQueries + Queries2022
  }

  /** `RegisterExtensions`: the twelve unit-utility extensions, in order. */
  method RegisterExtensions(manager: ExtensionManager)
    modifies manager
    ensures manager.names == old(manager.names) + ExtensionNames()
  {
    manager.Register("ToUnitLabel");
    manager.Register("ToSpecLabel");
    manager.Register("ToSymbolLabel");
    manager.Register("ToGroupLabel");
    manager.Register("ToDisciplineLabel");
    manager.Register("ToParameterLabel");
    manager.Register("IsUnit");
    manager.Register("IsSymbol");
    manager.Register("IsSpec");
    manager.Register("IsMeasurableSpec");
    manager.Register("IsBuiltInParameter");
    manager.Register("IsBuiltInGroup");
  }
}
