/**
 * `LocationCurveDescriptor`: the indexed properties `ElementsAtJoin` and `JoinType`
 * of a location curve, read at its two ends.
 */
module LocationCurveDescriptor {
  import opened Wrappers
  import opened Engine
  import Text

  /** The curve: `get_ElementsAtJoin(end)` and `get_JoinType(end)`. */
  datatype LocationCurve<A, J> = LocationCurve(elementsAtJoin: int -> A, joinType: int -> J)

  datatype Resolver = ElementsAtJoin | JoinType

  /** `Resolve`: the two indexed properties by their literal names. */
  function Resolve(target: string): (r: Resolution<Resolver>)
    ensures !r.Disabled?
    ensures r == Factory(ElementsAtJoin) <==> target == "ElementsAtJoin"
    ensures r == Factory(JoinType) <==> target == "JoinType"
  {
    if target == "ElementsAtJoin" then Factory(ElementsAtJoin)
    else if target == "JoinType" then Factory(JoinType)
    else Unresolved
  }

  /** A curve has two ends, 0 and 1. */
  const EndCount: nat := 2

  /** `$"Point {i}"`. */
  function PointLabel(i: int): string
  {
    "Point " + Text.IntToString(i)
  }

  /** One end property read at ends 0 and 1, labelled "Point {i}". */
  method ResolveAtEnds<T>(property: int -> T) returns (r: Variant<T>)
    ensures r.Values? && |r.entries| == EndCount
    ensures forall k | 0 <= k < EndCount :: r.entries[k] == Entry(property(k), Some(PointLabel(k)))
  {
    var variants := new Builder<T>(EndCount);
    for i := 0 to EndCount
      invariant !variants.consumed && |variants.entries| == i
      invariant forall k | 0 <= k < i :: variants.entries[k] == Entry(property(k), Some(PointLabel(k)))
    {
      variants.AddLabelled(property(i), PointLabel(i));
    }
    r := variants.Consume();
  }

  /** `ElementsAtJoin`: the elements joined at the start, then at the end. */
  method ResolveElementsAtJoin<A, J>(curve: LocationCurve<A, J>) returns (r: Variant<A>)
    ensures r == Values([Entry(curve.elementsAtJoin(0), Some("Point 0")), Entry(curve.elementsAtJoin(1), Some("Point 1"))])
  {
    r := ResolveAtEnds(curve.elementsAtJoin);
    assert PointLabel(0) == "Point 0" && PointLabel(1) == "Point 1";
  }

  /** `JoinType`: the join type at the start, then at the end. */
  method ResolveJoinType<A, J>(curve: LocationCurve<A, J>) returns (r: Variant<J>)
    ensures r == Values([Entry(curve.joinType(0), Some("Point 0")), Entry(curve.joinType(1), Some("Point 1"))])
  {
    r := ResolveAtEnds(curve.joinType);
    assert PointLabel(0) == "Point 0" && PointLabel(1) == "Point 1";
  }
}
