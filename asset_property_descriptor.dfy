/**
 * `AssetPropertyDescriptor`: the properties connected to an asset property, and
 * the name of its property type.
 */
module AssetPropertyDescriptor {
  import opened Wrappers
  import opened Engine

  /** An asset property: its `Name`, its `Type`, and its connected properties by index. */
  datatype AssetProperty<K> = AssetProperty(
    name: string, propertyType: K, numberOfConnectedProperties: nat, connectedProperty: int -> AssetProperty<K>)

  datatype Resolver = GetTypeName | ConnectedProperty

  /** `Resolve`: the type name and the connected properties; other names are not resolved. */
  function Resolve(target: string): (r: Resolution<Resolver>)
    ensures !r.Disabled?
    ensures r == Factory(GetTypeName) <==> target == "GetTypeName"
    ensures r == Factory(ConnectedProperty) <==> target == "GetConnectedProperty"
  {
    if target == "GetTypeName" then Factory(GetTypeName)
    else if target == "GetConnectedProperty" then Factory(ConnectedProperty)
    else Unresolved
  }

  /** `GetConnectedProperty`: every connected property in index order, labelled with its name. */
  method ResolveConnectedProperty<K>(property: AssetProperty<K>) returns (r: Variant<AssetProperty<K>>)
    ensures r.Values? && |r.entries| == property.numberOfConnectedProperties
    ensures forall k | 0 <= k < property.numberOfConnectedProperties ::
      r.entries[k] == Entry(property.connectedProperty(k), Some(property.connectedProperty(k).name))
  {
    var capacity := property.numberOfConnectedProperties;
    var variants := new Builder<AssetProperty<K>>(capacity);
    for i := 0 to capacity
      invariant !variants.consumed && |variants.entries| == i
      invariant forall k | 0 <= k < i ::
        variants.entries[k] == Entry(property.connectedProperty(k), Some(property.connectedProperty(k).name))
    {
      var connected := property.connectedProperty(i);
      variants.AddLabelled(connected, connected.name);
    }
    r := variants.Consume();
  }

  /** `GetTypeName`: the host's name for the property's type, as one value (`typeName` is `AssetProperty.GetTypeName`). */
  function ResolveGetTypeName<K>(property: AssetProperty<K>, typeName: K -> string): (r: Variant<string>)
    ensures r.Single? && r.entry == Entry(typeName(property.propertyType), None)
  {
    Value(typeName(property.propertyType))
  }
}
