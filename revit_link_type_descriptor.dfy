/**
 * `RevitLinkTypeDescriptor`: a link type whose load commands must never be invoked
 * by the browser; it replaces the element descriptor's table and extensions.
 */
module RevitLinkTypeDescriptor {
  import opened Engine
  import ElementDescriptor

  datatype Resolver = IsLoaded

  /** `Resolve`: Load and Reload are disabled, IsLoaded is resolved, nothing else is. */
  function Resolve(target: string): (r: Resolution<Resolver>)
    ensures r.Disabled? <==> target == "Load" || target == "Reload"
    ensures r.Factory? <==> target == "IsLoaded"
  {
    match target
    case "Load" => Disabled
    case "Reload" => Disabled
    case "IsLoaded" => Factory(IsLoaded)
    case _ => Unresolved
  }

  /** The override does not fall back to the element descriptor: none of its members resolve here. */
  lemma HidesElementResolvers(t: ElementDescriptor.Resolver)
    ensures Resolve(ElementDescriptor.MemberName(t)) == Unresolved
  {
  }

  /** `ResolveIsLoaded`: the single value `RevitLinkType.IsLoaded(document, id)`. */
  function ResolveIsLoaded(isLoaded: bool): (r: Variant<bool>)
    ensures r.Single? && r.entry.value == isLoaded && r.entry.caption.None?
  {
    Value(isLoaded)
  }

  /** `RegisterExtensions`: registers nothing, so the element extensions are not offered for link types. */
  method RegisterExtensions(manager: ExtensionManager)
    ensures manager.names == old(manager.names)
  {
  }
}
