/**
 * `ConnectorManagerDescriptor`: `Lookup` read for every index below the size of
 * the manager's connector set.
 */
module ConnectorManagerDescriptor {
  import opened Wrappers
  import opened Engine

  /** The manager: the size of `Connectors` and `Lookup(i)`. */
  datatype ConnectorManager<C> = ConnectorManager(connectorsSize: nat, lookup: int -> C)

  datatype Resolver = Lookup

  /** `Resolve`: only `Lookup`. */
  function Resolve(target: string): (r: Resolution<Resolver>)
    ensures !r.Disabled?
    ensures r.Factory? <==> target == "Lookup"
  {
    if target == "Lookup" then Factory(Lookup) else Unresolved
  }

  /** `Lookup(0)` to `Lookup(Size - 1)`, in order, unlabelled. */
  method ResolveLookup<C>(manager: ConnectorManager<C>) returns (r: Variant<C>)
    ensures r.Values? && |r.entries| == manager.connectorsSize
    ensures forall k | 0 <= k < manager.connectorsSize :: r.entries[k] == Entry(manager.lookup(k), None)
  {
    var capacity := manager.connectorsSize;
    var variants := new Builder<C>(capacity);
    for i := 0 to capacity
      invariant !variants.consumed && |variants.entries| == i
      invariant forall k | 0 <= k < i :: variants.entries[k] == Entry(manager.lookup(k), None)
    {
      variants.Add(manager.lookup(i));
    }
    r := variants.Consume();
  }
}
