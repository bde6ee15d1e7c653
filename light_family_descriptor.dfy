/**
 * `LightFamilyDescriptor`: the light types of a lighting family, by name and by
 * type, for every index below the family's light-type count.
 */
module LightFamilyDescriptor {
  import opened Wrappers
  import opened Engine
  import Text

  /** The family: `GetNumberOfLightTypes()`, `GetLightTypeName(i)` and `GetLightType(i)`. */
  datatype LightFamily<L> = LightFamily(numberOfLightTypes: nat, lightTypeName: int -> string, lightType: int -> L)

  datatype Resolver = LightTypeName | LightType

  /** `Resolve`: the two per-index getters; other names are not resolved. */
  function Resolve(target: string): (r: Resolution<Resolver>)
    ensures !r.Disabled?
    ensures r == Factory(LightTypeName) <==> target == "GetLightTypeName"
    ensures r == Factory(LightType) <==> target == "GetLightType"
  {
    if target == "GetLightTypeName" then Factory(LightTypeName)
    else if target == "GetLightType" then Factory(LightType)
    else Unresolved
  }

  /** `GetLightTypeName`: the name of every light type, in index order, unlabelled; the count is read once. */
  method ResolveLightTypeName<L>(family: LightFamily<L>) returns (r: Variant<string>)
    ensures r.Values? && |r.entries| == family.numberOfLightTypes
    ensures forall k | 0 <= k < family.numberOfLightTypes :: r.entries[k] == Entry(family.lightTypeName(k), None)
  {
    var capacity := family.numberOfLightTypes;
    var variants := new Builder<string>(capacity);
    for i := 0 to capacity
      invariant !variants.consumed && |variants.entries| == i
      invariant forall k | 0 <= k < i :: variants.entries[k] == Entry(family.lightTypeName(k), None)
    {
      var name := family.lightTypeName(i);
      variants.Add(name);
    }
    r := variants.Consume();
  }

  /** `$"Index {i}"`. */
  function IndexLabel(i: int): string
  {
    "Index " + Text.IntToString(i)
  }

  /** `GetLightType`: the same indices, each light type labelled "Index {i}". */
  method ResolveLightType<L>(family: LightFamily<L>) returns (r: Variant<L>)
    ensures r.Values? && |r.entries| == family.numberOfLightTypes
    ensures forall k | 0 <= k < family.numberOfLightTypes :: r.entries[k] == Entry(family.lightType(k), Some(IndexLabel(k)))
  {
    var capacity := family.numberOfLightTypes;
    var variants := new Builder<L>(capacity);
    for i := 0 to capacity
      invariant !variants.consumed && |variants.entries| == i
      invariant forall k | 0 <= k < i :: variants.entries[k] == Entry(family.lightType(k), Some(IndexLabel(k)))
    {
      var lightType := family.lightType(i);
      variants.AddLabelled(lightType, IndexLabel(i));
    }
    r := variants.Consume();
  }
}
