/**
 * `FamilySizeTableDescriptor`: the column headers of a family size table, and the
 * column-index validity check probed on every index up to one past the last column.
 */
module FamilySizeTableDescriptor {
  import opened Wrappers
  import opened Engine
  import Text

  /** The table: its column count, `GetColumnHeader(i)` and `IsValidColumnIndex(i)`. */
  datatype FamilySizeTable<H> = FamilySizeTable(numberOfColumns: nat, columnHeader: int -> H, isValidColumnIndex: int -> bool)

  datatype Resolver = ColumnHeader | IsValidColumnIndex

  /** `Resolve`: the two column queries; other names are not resolved. */
  function Resolve(target: string): (r: Resolution<Resolver>)
    ensures !r.Disabled?
    ensures r == Factory(ColumnHeader) <==> target == "GetColumnHeader"
    ensures r == Factory(IsValidColumnIndex) <==> target == "IsValidColumnIndex"
  {
    if target == "GetColumnHeader" then Factory(ColumnHeader)
    else if target == "IsValidColumnIndex" then Factory(IsValidColumnIndex)
    else Unresolved
  }

  /** `GetColumnHeader`: the headers of columns 0 to `NumberOfColumns - 1`, unlabelled. */
  method ResolveColumnHeader<H>(table: FamilySizeTable<H>) returns (r: Variant<H>)
    ensures r.Values? && |r.entries| == table.numberOfColumns
    ensures forall k | 0 <= k < table.numberOfColumns :: r.entries[k] == Entry(table.columnHeader(k), None)
  {
    var count := table.numberOfColumns;
    var variants := new Builder<H>(count);
    for i := 0 to count
      invariant !variants.consumed && |variants.entries| == i
      invariant forall k | 0 <= k < i :: variants.entries[k] == Entry(table.columnHeader(k), None)
    {
      variants.Add(table.columnHeader(i));
    }
    r := variants.Consume();
  }

  /** `$"{i}: {result}"` for a validity probe. */
  function ValidityLabel(i: int, result: bool): string
  {
    Text.IntToString(i) + ": " + Text.BoolToString(result)
  }

  /** `IsValidColumnIndex`: indices 0 to `NumberOfColumns` inclusive, so one probe lies past the last column. */
  method ResolveIsValidColumnIndex<H>(table: FamilySizeTable<H>) returns (r: Variant<bool>)
    ensures r.Values? && |r.entries| == table.numberOfColumns + 1
    ensures forall k | 0 <= k <= table.numberOfColumns ::
      r.entries[k] == Entry(table.isValidColumnIndex(k), Some(ValidityLabel(k, table.isValidColumnIndex(k))))
  {
    var count := table.numberOfColumns;
    var variants := new Builder<bool>(count);
    var i := 0;
    while i <= count
      invariant 0 <= i <= count + 1
      invariant !variants.consumed && |variants.entries| == i
      invariant forall k | 0 <= k < i ::
        variants.entries[k] == Entry(table.isValidColumnIndex(k), Some(ValidityLabel(k, table.isValidColumnIndex(k))))
    {
      var result := table.isValidColumnIndex(i);
      variants.AddLabelled(result, ValidityLabel(i, result));
      i := i + 1;
    }
    r := variants.Consume();
  }
}
