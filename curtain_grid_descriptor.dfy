/**
 * `CurtainGridDescriptor`: the cells and panels of a curtain grid, read for every
 * pair of a U grid line and a V grid line, where each line list is first extended
 * with the invalid id that stands for the grid's outer border.
 */
module CurtainGridDescriptor {
  import opened Wrappers
  import opened Host
  import opened Engine
  import Sequences

  datatype Panel = Panel(panelName: string, panelId: ElementId)

  /** The grid: its U and V line ids, and `GetCell` and `GetPanel` (a missing panel is None). */
  datatype CurtainGrid<C> = CurtainGrid(
    uGridLineIds: seq<ElementId>,
    vGridLineIds: seq<ElementId>,
    getCell: (ElementId, ElementId) -> C,
    getPanel: (ElementId, ElementId) -> Option<Panel>)

  datatype Resolver = Cells | Panels

  /** `Resolve`: GetCell and GetPanel, whatever their parameters. */
  function Resolve(target: string): (r: Resolution<Resolver>)
    ensures !r.Disabled?
    ensures r == Factory(Cells) <==> target == "GetCell"
    ensures r == Factory(Panels) <==> target == "GetPanel"
  {
    if target == "GetCell" then Factory(Cells)
    else if target == "GetPanel" then Factory(Panels)
    else Unresolved
  }

  /** A line list after `Add(ElementId.InvalidElementId)`. */
  function WithBorder(ids: seq<ElementId>): (r: seq<ElementId>)
    ensures |r| == |ids| + 1 && r[..|ids|] == ids && r[|ids|] == InvalidElementId
  {
    ids + [InvalidElementId]
  }

  /** The pairs of one U line with every V line, in V order. */
  function Row(u: ElementId, vs: seq<ElementId>): (r: seq<(ElementId, ElementId)>)
    ensures |r| == |vs|
    ensures forall k | 0 <= k < |vs| :: r[k] == (u, vs[k])
  {
    seq(|vs|, k requires 0 <= k < |vs| => (u, vs[k]))
  }

  /** The U-major cartesian product of two line lists. */
  function Pairs(us: seq<ElementId>, vs: seq<ElementId>): seq<(ElementId, ElementId)>
  {
    if us == [] then [] else Pairs(us[..|us| - 1], vs) + Row(us[|us| - 1], vs)
  }

  /** There are `|us| * |vs|` pairs. */
  lemma {:induction false} PairsLength(us: seq<ElementId>, vs: seq<ElementId>)
    ensures |Pairs(us, vs)| == |us| * |vs|
  {
    if us != [] {
      var n := |us| - 1;
      PairsLength(us[..n], vs);
      assert |Pairs(us, vs)| == n * |vs| + |vs|;
      assert n * |vs| + |vs| == (n + 1) * |vs|;
    }
  }

  /** Pair `i * |vs| + j` is line `i` of `us` with line `j` of `vs`. */
  lemma {:induction false} PairsAt(us: seq<ElementId>, vs: seq<ElementId>, i: nat, j: nat)
    requires i < |us| && j < |vs|
    ensures i * |vs| + j < |Pairs(us, vs)|
    ensures Pairs(us, vs)[i * |vs| + j] == (us[i], vs[j])
  {
    var n := |us| - 1;
    var init := us[..n];
    PairsLength(init, vs);
    assert Pairs(us, vs) == Pairs(init, vs) + Row(us[n], vs);
    if i < n {
      PairsAt(init, vs, i, j);
    } else {
      assert i * |vs| == |Pairs(init, vs)|;
    }
  }

  /** One more V line in the row being enumerated. */
  lemma RowSnoc(u: ElementId, vs: seq<ElementId>, j: nat)
    requires j < |vs|
    ensures Row(u, vs[..j + 1]) == Row(u, vs[..j]) + [(u, vs[j])]
  {
  }

  /** One more U line enumerated in full. */
  lemma PairsSnoc(us: seq<ElementId>, vs: seq<ElementId>, i: nat)
    requires i < |us|
    ensures Pairs(us[..i + 1], vs) == Pairs(us[..i], vs) + Row(us[i], vs)
  {
    assert us[..i + 1][..i] == us[..i];
  }

  /** `$"U {u}, V {v}"`. */
  function CellLabel(u: ElementId, v: ElementId): string
  {
    "U " + IdToString(u) + ", V " + IdToString(v)
  }

  /** Labels tell the pairs apart: an id never contains the comma that ends the U part. */
  lemma CellLabelInjective(u: ElementId, v: ElementId, u': ElementId, v': ElementId)
    requires CellLabel(u, v) == CellLabel(u', v')
    ensures u == u' && v == v'
  {
    var a, b, a', b' := IdToString(u), IdToString(v), IdToString(u'), IdToString(v');
    var s := CellLabel(u, v);
    FirstComma(a, b);
    FirstComma(a', b');
    assert |a| == |a'|;
    assert a == s[2..2 + |a|] == a';
    assert b == s[2 + |a| + 4..] == b';
    Text.IntToStringInjective(u, u');
    Text.IntToStringInjective(v, v');
  }

  /** In "U {u}, V {v}" the first comma after "U " ends the U id. */
  lemma FirstComma(a: string, b: string)
    requires forall k | 0 <= k < |a| :: a[k] == '-' || '0' <= a[k] <= '9'
    ensures var s := "U " + a + ", V " + b;
      s[2 + |a|] == ',' && forall k | 2 <= k < 2 + |a| :: s[k] != ','
  {
    var s := "U " + a + ", V " + b;
    forall k | 2 <= k < 2 + |a|
      ensures s[k] != ','
    {
      assert s[k] == a[k - 2];
    }
  }

  function CellEntry<C>(grid: CurtainGrid<C>): ((ElementId, ElementId)) -> Entry<C>
  {
    (p: (ElementId, ElementId)) => Entry(grid.getCell(p.0, p.1), Some(CellLabel(p.0, p.1)))
  }

  /** Every pair of lines, border lines included, in U-major order. */
  function GridPairs<C>(grid: CurtainGrid<C>): seq<(ElementId, ElementId)>
  {
    Pairs(WithBorder(grid.uGridLineIds), WithBorder(grid.vGridLineIds))
  }

  /** `GetCell`: the cell of every pair of lines, border lines included, U-major, labelled "U {u}, V {v}". */
  method ResolveCells<C>(grid: CurtainGrid<C>) returns (r: Variant<C>)
    ensures r == Values(Sequences.Map(GridPairs(grid), CellEntry(grid)))
  {
    var uLinesIds := grid.uGridLineIds;
    var vLinesIds := grid.vGridLineIds;
    uLinesIds := uLinesIds + [InvalidElementId];
    vLinesIds := vLinesIds + [InvalidElementId];
    var capacity := |uLinesIds| * |vLinesIds|;
    var variants := new Builder<C>(capacity);
    for i := 0 to |uLinesIds|
      invariant !variants.consumed
      invariant variants.entries == Sequences.Map(Pairs(uLinesIds[..i], vLinesIds), CellEntry(grid))
    {
      var uLineId := uLinesIds[i];
      for j := 0 to |vLinesIds|
        invariant !variants.consumed
        invariant variants.entries == Sequences.Map(Pairs(uLinesIds[..i], vLinesIds) + Row(uLineId, vLinesIds[..j]), CellEntry(grid))
      {
        var vLineId := vLinesIds[j];
        RowSnoc(uLineId, vLinesIds, j);
        Sequences.MapSnoc(Pairs(uLinesIds[..i], vLinesIds) + Row(uLineId, vLinesIds[..j]), (uLineId, vLineId), CellEntry(grid));
        variants.AddLabelled(grid.getCell(uLineId, vLineId), CellLabel(uLineId, vLineId));
      }
      assert vLinesIds[..|vLinesIds|] == vLinesIds;
      PairsSnoc(uLinesIds, vLinesIds, i);
    }
    assert uLinesIds[..|uLinesIds|] == uLinesIds;
    r := variants.Consume();
  }

  /** There are `(|U| + 1) * (|V| + 1)` cells, the declared capacity, and entry `i * (|V| + 1) + j` is for U line `i` and V line `j`. */
  lemma CellsLayout<C>(grid: CurtainGrid<C>, i: nat, j: nat)
    requires i <= |grid.uGridLineIds| && j <= |grid.vGridLineIds|
    ensures var us, vs := WithBorder(grid.uGridLineIds), WithBorder(grid.vGridLineIds);
      |GridPairs(grid)| == |us| * |vs| &&
      Sequences.Map(GridPairs(grid), CellEntry(grid))[i * |vs| + j] ==
        Entry(grid.getCell(us[i], vs[j]), Some(CellLabel(us[i], vs[j])))
  {
    var us, vs := WithBorder(grid.uGridLineIds), WithBorder(grid.vGridLineIds);
    PairsLength(us, vs);
    PairsAt(us, vs, i, j);
  }

  /** `$"U {u}, V {v} - {panel.Name}, ID{panel.Id}"`. */
  function PanelLabel(u: ElementId, v: ElementId, panel: Panel): string
  {
    CellLabel(u, v) + " - " + panel.panelName + ", ID" + IdToString(panel.panelId)
  }

  /** Every pair of lines the loops visit is in the grid's product. */
  lemma InGrid<C>(grid: CurtainGrid<C>, i: nat, j: nat)
    requires i < |WithBorder(grid.uGridLineIds)| && j < |WithBorder(grid.vGridLineIds)|
    ensures (WithBorder(grid.uGridLineIds)[i], WithBorder(grid.vGridLineIds)[j]) in GridPairs(grid)
  {
    var us, vs := WithBorder(grid.uGridLineIds), WithBorder(grid.vGridLineIds);
    PairsAt(us, vs, i, j);
    assert Pairs(us, vs)[i * |vs| + j] in GridPairs(grid);
  }

  /** A pair of lines without a panel: reading the panel's name dereferences null. */
  function NoPanel<C>(grid: CurtainGrid<C>): ((ElementId, ElementId)) -> bool
  {
    (p: (ElementId, ElementId)) => grid.getPanel(p.0, p.1).None?
  }

  function PanelEntry<C>(grid: CurtainGrid<C>): ((ElementId, ElementId)) -> Entry<Option<Panel>>
  {
    (p: (ElementId, ElementId)) =>
      var panel := grid.getPanel(p.0, p.1);
      Entry(panel, Some(if panel.Some? then PanelLabel(p.0, p.1, panel.value) else CellLabel(p.0, p.1)))
  }

  const NullDereference: Exception := Exception(NullReferenceException, "Object reference not set to an instance of an object.")

  /** `GetPanel`: the panel of every pair of lines, U-major, labelled with the lines, the panel name and id; a missing panel throws. */
  method ResolvePanels<C>(grid: CurtainGrid<C>) returns (r: Result<Variant<Option<Panel>>, Exception>)
    ensures r.Failure? <==> exists p | p in GridPairs(grid) :: NoPanel(grid)(p)
    ensures r.Failure? ==> r.error == NullDereference
    ensures r.Success? ==> r.value == Values(Sequences.Map(GridPairs(grid), PanelEntry(grid)))
  {
    var uLinesIds := grid.uGridLineIds;
    var vLinesIds := grid.vGridLineIds;
    uLinesIds := uLinesIds + [InvalidElementId];
    vLinesIds := vLinesIds + [InvalidElementId];
    assert uLinesIds == WithBorder(grid.uGridLineIds) && vLinesIds == WithBorder(grid.vGridLineIds);
    var capacity := |uLinesIds| * |vLinesIds|;
    var variants := new Builder<Option<Panel>>(capacity);
    for i := 0 to |uLinesIds|
      invariant !variants.consumed
      invariant forall p | p in Pairs(uLinesIds[..i], vLinesIds) :: !NoPanel(grid)(p)
      invariant variants.entries == Sequences.Map(Pairs(uLinesIds[..i], vLinesIds), PanelEntry(grid))
    {
      var uLineId := uLinesIds[i];
      for j := 0 to |vLinesIds|
        invariant !variants.consumed
        invariant forall p | p in Pairs(uLinesIds[..i], vLinesIds) + Row(uLineId, vLinesIds[..j]) :: !NoPanel(grid)(p)
        invariant variants.entries == Sequences.Map(Pairs(uLinesIds[..i], vLinesIds) + Row(uLineId, vLinesIds[..j]), PanelEntry(grid))
      {
        var vLineId := vLinesIds[j];
        RowSnoc(uLineId, vLinesIds, j);
        var panel := grid.getPanel(uLineId, vLineId);
        if panel.None? {
          InGrid(grid, i, j);
          return Failure(NullDereference);
        }
        Sequences.MapSnoc(Pairs(uLinesIds[..i], vLinesIds) + Row(uLineId, vLinesIds[..j]), (uLineId, vLineId), PanelEntry(grid));
        variants.AddLabelled(panel, PanelLabel(uLineId, vLineId, panel.value));
      }
      assert vLinesIds[..|vLinesIds|] == vLinesIds;
      PairsSnoc(uLinesIds, vLinesIds, i);
    }
    assert uLinesIds[..|uLinesIds|] == uLinesIds;
    var result := variants.Consume();
    return Success(result);
  }
}
