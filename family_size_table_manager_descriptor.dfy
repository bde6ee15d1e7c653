/**
 * `FamilySizeTableManagerDescriptor`: the size tables of a family, listed by name,
 * their presence checks, and the manager itself for `GetFamilySizeTableManager`.
 */
module FamilySizeTableManagerDescriptor {
  import opened Wrappers
  import opened Engine
  import Text

  /** The manager: `GetAllSizeTableNames()`, `GetSizeTable(name)` and `HasSizeTable(name)`. */
  datatype FamilySizeTableManager<T> = FamilySizeTableManager(
    sizeTableNames: seq<string>, sizeTable: string -> T, hasSizeTable: string -> bool)

  datatype Resolver = SizeTable | HasSizeTable | GetFamilySizeTableManager

  /** `Resolve`: the three manager queries; other names are not resolved. */
  function Resolve(target: string): (r: Resolution<Resolver>)
    ensures !r.Disabled?
    ensures r == Factory(SizeTable) <==> target == "GetSizeTable"
    ensures r == Factory(HasSizeTable) <==> target == "HasSizeTable"
    ensures r == Factory(GetFamilySizeTableManager) <==> target == "GetFamilySizeTableManager"
  {
    if target == "GetSizeTable" then Factory(SizeTable)
    else if target == "HasSizeTable" then Factory(HasSizeTable)
    else if target == "GetFamilySizeTableManager" then Factory(GetFamilySizeTableManager)
    else Unresolved
  }

  /** `GetSizeTable`: one table per name, in the order the manager lists names, labelled with the name. */
  method ResolveSizeTable<T>(manager: FamilySizeTableManager<T>) returns (r: Variant<T>)
    ensures r.Values? && |r.entries| == |manager.sizeTableNames|
    ensures forall k | 0 <= k < |manager.sizeTableNames| ::
      r.entries[k] == Entry(manager.sizeTable(manager.sizeTableNames[k]), Some(manager.sizeTableNames[k]))
  {
    var names := manager.sizeTableNames;
    var variants := new Builder<T>(|names|);
    for i := 0 to |names|
      invariant !variants.consumed && |variants.entries| == i
      invariant forall k | 0 <= k < i :: variants.entries[k] == Entry(manager.sizeTable(names[k]), Some(names[k]))
    {
      var name := names[i];
      variants.AddLabelled(manager.sizeTable(name), name);
    }
    r := variants.Consume();
  }

  /** `$"{name}: {result}"`. */
  function PresenceLabel(name: string, result: bool): string
  {
    name + ": " + Text.BoolToString(result)
  }

  /** `HasSizeTable`: the presence check for every listed name, labelled "{name}: {result}". */
  method ResolveHasSizeTable<T>(manager: FamilySizeTableManager<T>) returns (r: Variant<bool>)
    ensures r.Values? && |r.entries| == |manager.sizeTableNames|
    ensures forall k | 0 <= k < |manager.sizeTableNames| ::
      var name := manager.sizeTableNames[k];
      r.entries[k] == Entry(manager.hasSizeTable(name), Some(PresenceLabel(name, manager.hasSizeTable(name))))
  {
    var names := manager.sizeTableNames;
    var variants := new Builder<bool>(|names|);
    for i := 0 to |names|
      invariant !variants.consumed && |variants.entries| == i
      invariant forall k | 0 <= k < i ::
        variants.entries[k] == Entry(manager.hasSizeTable(names[k]), Some(PresenceLabel(names[k], manager.hasSizeTable(names[k]))))
    {
      var name := names[i];
      var result := manager.hasSizeTable(name);
      variants.AddLabelled(result, PresenceLabel(name, result));
    }
    r := variants.Consume();
  }

  /** `GetFamilySizeTableManager`: the wrapped manager itself, as one value. */
  function ResolveGetFamilySizeTableManager<T>(manager: FamilySizeTableManager<T>): (r: Variant<FamilySizeTableManager<T>>)
    ensures r.Single? && r.entry.value == manager && r.entry.caption.None?
  {
    Value(manager)
  }
}
