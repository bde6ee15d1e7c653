/**
 * `WallDescriptor`: probes every wall cross-section and both wall ends; it replaces
 * the element descriptor's table and extensions.
 */
module WallDescriptor {
  import opened Wrappers
  import opened Engine
  import opened Host
  import Text
  import Probes
  import ElementDescriptor

  datatype Resolver = IsWallCrossSectionValid

  /** `Resolve`: only IsWallCrossSectionValid is resolved. */
  function Resolve(target: string): (r: Resolution<Resolver>)
    ensures !r.Disabled?
    ensures r.Factory? <==> target == "IsWallCrossSectionValid"
  {
    if target == "IsWallCrossSectionValid" then Factory(IsWallCrossSectionValid) else Unresolved
  }

  /** The override does not fall back to the element descriptor: none of its members resolve here. */
  lemma HidesElementResolvers(t: ElementDescriptor.Resolver)
    ensures Resolve(ElementDescriptor.MemberName(t)) == Unresolved
  {
  }

  /** `ResolveIsWallCrossSectionValid`: one "{crossSection}: {result}" entry per `WallCrossSection` member. */
  method ResolveIsWallCrossSectionValid(crossSections: seq<EnumMember>, isValid: EnumMember -> bool)
    returns (r: Variant<bool>)
    ensures r.Values? && |r.entries| == |crossSections|
    ensures forall k | 0 <= k < |crossSections| ::
      r.entries[k] == Entry(isValid(crossSections[k]), Some(crossSections[k].name + ": " + Text.BoolToString(isValid(crossSections[k]))))
  {
    r := Probes.ProbeEnum(crossSections, isValid, Text.BoolToString);
  }

  /** The extension members `RegisterExtensions` adds. */
  const ExtensionNames: seq<string> := ["IsWallJoinAllowedAtEnd"]

  /** `RegisterExtensions`: registers the join extension only, replacing the element extensions. */
  method RegisterExtensions(manager: ExtensionManager)
    modifies manager
    ensures manager.names == old(manager.names) + ExtensionNames
  {
    manager.Register("IsWallJoinAllowedAtEnd");
  }

  /** `ResolveIsWallJoinAllowedAtEnd`: end 0 labelled "Start: …", then end 1 labelled "End: …". */
  method ResolveIsWallJoinAllowedAtEnd(isJoinAllowedAtEnd: int -> bool) returns (r: Variant<bool>)
    ensures r.Values? && |r.entries| == 2
    ensures r.entries[0] == Entry(isJoinAllowedAtEnd(0), Some("Start: " + Text.BoolToString(isJoinAllowedAtEnd(0))))
    ensures r.entries[1] == Entry(isJoinAllowedAtEnd(1), Some("End: " + Text.BoolToString(isJoinAllowedAtEnd(1))))
  {
    var variants := new Builder<bool>(2);
    var startResult := isJoinAllowedAtEnd(0);
    var endResult := isJoinAllowedAtEnd(1);
    variants.AddLabelled(startResult, "Start: " + Text.BoolToString(startResult));
    variants.AddLabelled(endResult, "End: " + Text.BoolToString(endResult));
    r := variants.Consume();
  }
}
