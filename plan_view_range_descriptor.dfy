/**
 * `PlanViewRangeDescriptor`: the offset and level of each of the four planes of a
 * plan view range, always in the order top clip, cut, bottom clip, underlay bottom.
 */
module PlanViewRangeDescriptor {
  import opened Wrappers
  import opened Host
  import opened Engine

  datatype PlanViewPlane = TopClipPlane | CutPlane | BottomClipPlane | UnderlayBottom

  /** The view range: `GetOffset(plane)` and `GetLevelId(plane)`. */
  datatype PlanViewRange<D> = PlanViewRange(offset: PlanViewPlane -> D, levelId: PlanViewPlane -> ElementId)

  datatype Resolver = GetOffset | GetLevelId

  /** `Resolve`: the two plane queries; other names are not resolved. */
  function Resolve(target: string): (r: Resolution<Resolver>)
    ensures !r.Disabled?
    ensures r == Factory(GetOffset) <==> target == "GetOffset"
    ensures r == Factory(GetLevelId) <==> target == "GetLevelId"
  {
    if target == "GetOffset" then Factory(GetOffset)
    else if target == "GetLevelId" then Factory(GetLevelId)
    else Unresolved
  }

  /** The planes in the order both resolvers list them. */
  const Planes: seq<PlanViewPlane> := [TopClipPlane, CutPlane, BottomClipPlane, UnderlayBottom]

  /** The caption of each plane. */
  function PlaneName(plane: PlanViewPlane): string
  {
    match plane
    case TopClipPlane => "Top clip plane"
    case CutPlane => "Cut plane"
    case BottomClipPlane => "Bottom clip plane"
    case UnderlayBottom => "Underlay bottom"
  }

  /** `GetOffset`: the four offsets, each labelled with its plane and the offset itself (`show` formats a double). */
  function ResolveGetOffset<D>(range: PlanViewRange<D>, show: D -> string): (r: Variant<D>)
    ensures r.Values? && |r.entries| == |Planes| == 4
    ensures forall k | 0 <= k < 4 ::
      r.entries[k] == Entry(range.offset(Planes[k]), Some(PlaneName(Planes[k]) + ": " + show(range.offset(Planes[k]))))
  {
    var top := range.offset(TopClipPlane);
    var cut := range.offset(CutPlane);
    var bottom := range.offset(BottomClipPlane);
    var underlay := range.offset(UnderlayBottom);
    Values([
      Entry(top, Some(PlaneName(TopClipPlane) + ": " + show(top))),
      Entry(cut, Some(PlaneName(CutPlane) + ": " + show(cut))),
      Entry(bottom, Some(PlaneName(BottomClipPlane) + ": " + show(bottom))),
      Entry(underlay, Some(PlaneName(UnderlayBottom) + ": " + show(underlay)))])
  }

  /** `GetLevelId`: the four level ids in the same plane order, labelled with the plane. */
  function ResolveGetLevelId<D>(range: PlanViewRange<D>): (r: Variant<ElementId>)
    ensures r.Values? && |r.entries| == 4
    ensures forall k | 0 <= k < 4 :: r.entries[k] == Entry(range.levelId(Planes[k]), Some(PlaneName(Planes[k])))
  {
    Values([
      Entry(range.levelId(TopClipPlane), Some("Top clip plane")),
      Entry(range.levelId(CutPlane), Some("Cut plane")),
      Entry(range.levelId(BottomClipPlane), Some("Bottom clip plane")),
      Entry(range.levelId(UnderlayBottom), Some("Underlay bottom"))])
  }

  /** Every plane appears exactly once, so the four entries never repeat a plane. */
  lemma PlanesDistinct()
    ensures forall i, j | 0 <= i < j < |Planes| :: Planes[i] != Planes[j] && PlaneName(Planes[i]) != PlaneName(Planes[j])
    ensures forall p: PlanViewPlane :: p in Planes
  {
    forall p: PlanViewPlane
      ensures p in Planes
    {
      match p
      case TopClipPlane => assert Planes[0] == p;
      case CutPlane => assert Planes[1] == p;
      case BottomClipPlane => assert Planes[2] == p;
      case UnderlayBottom => assert Planes[3] == p;
    }
  }
}
