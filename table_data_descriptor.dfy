/**
 * `TableDataDescriptor`: schedule table data, whose `GetSectionData` overloads are
 * enumerated by section type or by index, and whose valid zoom levels are found by
 * scanning upward from zero until 50 consecutive levels in a row are invalid.
 */
module TableDataDescriptor {
  import opened Wrappers
  import opened Host
  import opened Engine
  import Text
  import Sequences

  /** The table data: its sections by type and by index, and the set of zoom levels it accepts. */
  datatype TableData<S> = TableData(
    numberOfSections: nat,
    sectionByType: EnumMember -> S,
    sectionByIndex: int -> S,
    validZoomLevels: set<nat>)

  datatype Resolver = SectionDataBySectionType | SectionDataByIndex | ZoomLevel

  /** `Resolve`: `GetSectionData` by the type of its one parameter, and `IsValidZoomLevel`. */
  function Resolve(target: string, parameters: seq<ParamType>): (r: Resolution<Resolver>)
    ensures !r.Disabled?
    ensures r == Factory(SectionDataBySectionType) <==> target == "GetSectionData" && parameters == [SectionTypeParam]
    ensures r == Factory(SectionDataByIndex) <==> target == "GetSectionData" && parameters == [IntParam]
    ensures r == Factory(ZoomLevel) <==> target == "IsValidZoomLevel"
  {
    if target == "GetSectionData" && |parameters| == 1 && parameters[0] == SectionTypeParam then Factory(SectionDataBySectionType)
    else if target == "GetSectionData" && |parameters| == 1 && parameters[0] == IntParam then Factory(SectionDataByIndex)
    else if target == "IsValidZoomLevel" then Factory(ZoomLevel)
    else Unresolved
  }

  /** `GetSectionData(SectionType)`: one entry per section type, in enum order, labelled with its name. */
  method ResolveSectionDataBySectionType<S>(table: TableData<S>, sectionTypes: seq<EnumMember>) returns (r: Variant<S>)
    ensures r.Values? && |r.entries| == |sectionTypes|
    ensures forall k | 0 <= k < |sectionTypes| ::
      r.entries[k] == Entry(table.sectionByType(sectionTypes[k]), Some(sectionTypes[k].name))
  {
    var variants := new Builder<S>(|sectionTypes|);
    for i := 0 to |sectionTypes|
      invariant !variants.consumed && |variants.entries| == i
      invariant forall k | 0 <= k < i ::
        variants.entries[k] == Entry(table.sectionByType(sectionTypes[k]), Some(sectionTypes[k].name))
    {
      variants.AddLabelled(table.sectionByType(sectionTypes[i]), sectionTypes[i].name);
    }
    r := variants.Consume();
  }

  /** `GetSectionData(int)`: sections 0 to `NumberOfSections - 1`, each labelled with its index. */
  method ResolveSectionDataByIndex<S>(table: TableData<S>) returns (r: Variant<S>)
    ensures r.Values? && |r.entries| == table.numberOfSections
    ensures forall k | 0 <= k < table.numberOfSections ::
      r.entries[k] == Entry(table.sectionByIndex(k), Some(Text.IntToString(k)))
  {
    var variants := new Builder<S>(table.numberOfSections);
    for i := 0 to table.numberOfSections
      invariant !variants.consumed && |variants.entries| == i
      invariant forall k | 0 <= k < i :: variants.entries[k] == Entry(table.sectionByIndex(k), Some(Text.IntToString(k)))
    {
      variants.AddLabelled(table.sectionByIndex(i), Text.IntToString(i));
    }
    r := variants.Consume();
  }

  /** The number of invalid levels in a row that ends the scan. */
  const MaxEmptyIterations: nat := 50

  /** A number above every valid level: the finite set makes the scan terminate. */
  ghost function Bound(valid: set<nat>): (b: nat)
    ensures forall z | z in valid :: z < b
    decreases valid
  {
    if valid == {} then 0 else
      var x :| x in valid;
      var rest := Bound(valid - {x});
      assert forall z | z in valid :: z == x || z in valid - {x};
      if x + 1 > rest then x + 1 else rest
  }

  /** `empty` is the length of the whole run of invalid levels that ends just below `zoom`. */
  predicate RunBefore(valid: set<nat>, zoom: nat, empty: nat)
  {
    empty <= zoom &&
    (forall z | zoom - empty <= z < zoom :: z !in valid) &&
    (zoom == empty || zoom - empty - 1 in valid)
  }

  /** The scan ends within 50 levels of the last valid one. */
  lemma RunBeforeBound(valid: set<nat>, zoom: nat, empty: nat)
    requires RunBefore(valid, zoom, empty)
    ensures zoom <= Bound(valid) + empty
  {
  }

  /** The levels the scan records from `zoom` on, with `empty` invalid levels already seen in a row. */
  function Scan(valid: set<nat>, zoom: nat, empty: nat): (r: seq<nat>)
    requires empty < MaxEmptyIterations && RunBefore(valid, zoom, empty)
    ensures forall k | 0 <= k < |r| :: r[k] in valid && zoom <= r[k]
    ensures forall i, j | 0 <= i < j < |r| :: r[i] < r[j]
    decreases Bound(valid) + MaxEmptyIterations - zoom
  {
    RunBeforeBound(valid, zoom, empty);
    if zoom in valid then [zoom] + Scan(valid, zoom + 1, 0)
    else if empty + 1 < MaxEmptyIterations then Scan(valid, zoom + 1, empty + 1)
    else []
  }

  /** The levels `IsValidZoomLevel` records, in the order it records them. */
  function ZoomLevels(valid: set<nat>): (r: seq<nat>)
    ensures forall k | 0 <= k < |r| :: r[k] in valid
    ensures forall i, j | 0 <= i < j < |r| :: r[i] < r[j]
  {
    Scan(valid, 0, 0)
  }

  /** The entry recorded for a valid level. */
  function ZoomEntry(zoom: nat): Entry<bool>
  {
    Entry(true, Some(Text.IntToString(zoom) + ": valid"))
  }

  /** `IsValidZoomLevel`: the valid levels met before 50 invalid ones in a row, ascending, each as `true` labelled "{zoom}: valid". */
  method ResolveZoomLevel<S>(table: TableData<S>) returns (r: Variant<bool>)
    ensures r == Values(Sequences.Map(ZoomLevels(table.validZoomLevels), ZoomEntry))
  {
    var valid := table.validZoomLevels;
    var variants := new Builder<bool>(512);
    var zoom: nat := 0;
    var emptyIterations: nat := 0;
    ghost var listed: seq<nat> := [];
    while emptyIterations < MaxEmptyIterations
      invariant !variants.consumed
      invariant emptyIterations <= MaxEmptyIterations && RunBefore(valid, zoom, emptyIterations)
      invariant variants.entries == Sequences.Map(listed, ZoomEntry)
      invariant emptyIterations < MaxEmptyIterations ==> listed + Scan(valid, zoom, emptyIterations) == ZoomLevels(valid)
      invariant emptyIterations == MaxEmptyIterations ==> listed == ZoomLevels(valid)
      decreases Bound(valid) + MaxEmptyIterations - zoom
    {
      RunBeforeBound(valid, zoom, emptyIterations);
      var isValid := zoom in valid;
      if isValid {
        Sequences.MapSnoc(listed, zoom, ZoomEntry);
        assert listed + Scan(valid, zoom, emptyIterations) == (listed + [zoom]) + Scan(valid, zoom + 1, 0);
        variants.AddLabelled(true, Text.IntToString(zoom) + ": valid");
        listed := listed + [zoom];
        emptyIterations := 0;
      } else {
        emptyIterations := emptyIterations + 1;
      }
      zoom := zoom + 1;
    }
    r := variants.Consume();
  }

  /** Some level in `[start, start + 50)` is valid. */
  predicate HasValidIn(valid: set<nat>, start: nat)
  {
    exists z | start <= z < start + MaxEmptyIterations :: z in valid
  }

  /** No 50 consecutive levels below `n` are all invalid. */
  predicate NoGapBelow(valid: set<nat>, n: nat)
  {
    forall start: nat | start + MaxEmptyIterations <= n :: HasValidIn(valid, start)
  }

  /** One more level scanned without stopping keeps every window below it covered. */
  lemma NoGapStep(valid: set<nat>, zoom: nat, empty: nat)
    requires RunBefore(valid, zoom, empty) && NoGapBelow(valid, zoom)
    requires zoom in valid || empty + 1 < MaxEmptyIterations
    ensures NoGapBelow(valid, zoom + 1)
  {
    forall start: nat | start + MaxEmptyIterations <= zoom + 1
      ensures HasValidIn(valid, start)
    {
      if start + MaxEmptyIterations == zoom + 1 {
        if zoom in valid {
          assert start <= zoom < start + MaxEmptyIterations;
        } else {
          assert start <= zoom - empty - 1 < start + MaxEmptyIterations;
        }
      }
    }
  }

  /** Everything the scan records from `zoom` on is valid with no gap of 50 below it. */
  lemma {:induction false} ScanSound(valid: set<nat>, zoom: nat, empty: nat, v: nat)
    requires empty < MaxEmptyIterations && RunBefore(valid, zoom, empty) && NoGapBelow(valid, zoom)
    requires v in Scan(valid, zoom, empty)
    ensures NoGapBelow(valid, v)
    decreases Bound(valid) + MaxEmptyIterations - zoom
  {
    RunBeforeBound(valid, zoom, empty);
    if zoom in valid {
      if v != zoom {
        NoGapStep(valid, zoom, empty);
        ScanSound(valid, zoom + 1, 0, v);
      }
    } else if empty + 1 < MaxEmptyIterations {
      NoGapStep(valid, zoom, empty);
      ScanSound(valid, zoom + 1, empty + 1, v);
    }
  }

  /** Every valid level at or above `zoom` with no gap of 50 below it is recorded. */
  lemma {:induction false} ScanComplete(valid: set<nat>, zoom: nat, empty: nat, v: nat)
    requires empty < MaxEmptyIterations && RunBefore(valid, zoom, empty)
    requires v in valid && zoom <= v && NoGapBelow(valid, v)
    ensures v in Scan(valid, zoom, empty)
    decreases Bound(valid) + MaxEmptyIterations - zoom
  {
    RunBeforeBound(valid, zoom, empty);
    if zoom in valid {
      if v != zoom {
        ScanComplete(valid, zoom + 1, 0, v);
      }
    } else if empty + 1 < MaxEmptyIterations {
      ScanComplete(valid, zoom + 1, empty + 1, v);
    } else {
      assert HasValidIn(valid, zoom - empty);
    }
  }

  /**
   * The scan records a level exactly when it is valid and no 50 consecutive
   * levels below it are invalid: a valid level past such a gap is never reported.
   */
  lemma ZoomLevelRecorded(valid: set<nat>, v: nat)
    ensures v in ZoomLevels(valid) <==> v in valid && NoGapBelow(valid, v)
  {
    if v in ZoomLevels(valid) {
      ScanSound(valid, 0, 0, v);
    }
    if v in valid && NoGapBelow(valid, v) {
      ScanComplete(valid, 0, 0, v);
    }
  }
}
