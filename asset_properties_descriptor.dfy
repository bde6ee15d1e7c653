/**
 * `AssetPropertiesDescriptor`: the properties of a rendering asset, listed by
 * index whether the member asked for is `Get` or `FindByName`.
 */
module AssetPropertiesDescriptor {
  import opened Wrappers
  import opened Engine

  /** One asset property; only its `Name` is shown. */
  datatype AssetProperty = AssetProperty(name: string)

  /** The asset: `Size` and `Get(i)`. */
  datatype AssetProperties = AssetProperties(size: nat, get: int -> AssetProperty)

  datatype Resolver = AssetPropertiesResolver

  /** `Resolve`: `Get` and `FindByName` share the one resolver. */
  function Resolve(target: string): (r: Resolution<Resolver>)
    ensures !r.Disabled?
    ensures r.Factory? <==> target == "Get" || target == "FindByName"
  {
    if target == "Get" || target == "FindByName" then Factory(AssetPropertiesResolver) else Unresolved
  }

  /** Every property, `Get(0)` to `Get(Size - 1)`, labelled with its name. */
  method ResolveAssetProperties(asset: AssetProperties) returns (r: Variant<AssetProperty>)
    ensures r.Values? && |r.entries| == asset.size
    ensures forall k | 0 <= k < asset.size :: r.entries[k] == Entry(asset.get(k), Some(asset.get(k).name))
  {
    var capacity := asset.size;
    var variants := new Builder<AssetProperty>(capacity);
    for i := 0 to capacity
      invariant !variants.consumed && |variants.entries| == i
      invariant forall k | 0 <= k < i :: variants.entries[k] == Entry(asset.get(k), Some(asset.get(k).name))
    {
      var property := asset.get(i);
      variants.AddLabelled(property, property.name);
    }
    r := variants.Consume();
  }
}
