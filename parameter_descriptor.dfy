/**
 * `ParameterDescriptor`: a parameter shown by its definition name, whose
 * `ClearValue` must never be invoked and whose extensions depend on its storage
 * type and on the kind of document that owns it.
 */
module ParameterDescriptor {
  import opened Engine

  datatype StorageType = None | Integer | Double | String | ElementIdStorage

  /** The parameter as the descriptor reads it. */
  datatype Parameter = Parameter(
    definitionName: string, storageType: StorageType, isReadOnly: bool, inFamilyDocument: bool)

  /** `Name`: the definition's name. */
  function Name(p: Parameter): (r: string)
    ensures r == p.definitionName
  {
    p.definitionName
  }

  /** The descriptor resolves nothing itself. */
  datatype Resolver = NoResolver

  /** `Resolve`: ClearValue is disabled, every other member falls back to reflection. */
  function Resolve(target: string): (r: Resolution<Resolver>)
    ensures !r.Factory?
    ensures r.Disabled? <==> target == "ClearValue"
  {
    if target == "ClearValue" then Disabled else Unresolved
  }

  /** The extension members registered for a parameter, in registration order. */
  function ExtensionNames(p: Parameter): (r: seq<string>)
    ensures "AsBool" in r <==> p.storageType == Integer
    ensures "AsColor" in r <==> p.storageType == Integer
    ensures "GetAssociatedFamilyParameter" in r <==> p.inFamilyDocument
    ensures |r| == (if p.storageType == Integer then 2 else 0) + (if p.inFamilyDocument then 1 else 0)
  {
    (if p.storageType == Integer then ["AsBool", "AsColor"] else [])
    + (if p.inFamilyDocument then ["GetAssociatedFamilyParameter"] else [])
  }

  /** `RegisterExtensions`: AsBool and AsColor for integer storage, then the family-parameter lookup in a family document. */
  method RegisterExtensions(p: Parameter, manager: ExtensionManager)
    modifies manager
    ensures manager.names == old(manager.names) + ExtensionNames(p)
  {
    if p.storageType == Integer {
      manager.Register("AsBool");
      manager.Register("AsColor");
    }
    if p.inFamilyDocument {
      manager.Register("GetAssociatedFamilyParameter");
    }
  }

  /** The "Edit value" menu item is available for a writable parameter that stores something. */
  predicate EditAvailable(p: Parameter): (r: bool)
    ensures r ==> !p.isReadOnly
    ensures p.storageType == None ==> !r
    ensures !p.isReadOnly && p.storageType != None ==> r
  {
    !p.isReadOnly && p.storageType != None
  }
}
