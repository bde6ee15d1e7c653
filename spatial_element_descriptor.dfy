/**
 * `SpatialElementDescriptor`: the boundary segments of a room or space under each
 * boundary location, with and without free boundary faces stored.
 */
module SpatialElementDescriptor {
  import opened Engine
  import opened Wrappers
  import ElementDescriptor

  datatype BoundaryLocation = Center | CoreBoundary | Finish | CoreCenter

  /** The `SpatialElementBoundaryOptions` of one request. */
  datatype BoundaryOptions = BoundaryOptions(location: BoundaryLocation, storeFreeBoundaryFaces: bool)

  datatype Resolver = GetBoundarySegments

  /** `Resolve`: only GetBoundarySegments is resolved. */
  function Resolve(target: string): (r: Resolution<Resolver>)
    ensures !r.Disabled?
    ensures r.Factory? <==> target == "GetBoundarySegments"
  {
    if target == "GetBoundarySegments" then Factory(GetBoundarySegments) else Unresolved
  }

  /** The override does not fall back to the element descriptor. */
  lemma HidesElementResolvers(t: ElementDescriptor.Resolver)
    ensures Resolve(ElementDescriptor.MemberName(t)) == Unresolved
  {
  }

  const FreeFacesSuffix: string := ", store free boundary faces"

  /** A label claims stored free boundary faces when it ends with ", store free boundary faces". */
  predicate ClaimsFreeFaces(caption: string)
  {
    |FreeFacesSuffix| <= |caption| && caption[|caption| - |FreeFacesSuffix|..] == FreeFacesSuffix
  }

  /** A request is labelled truthfully when its label claims free faces exactly when it stores them. */
  predicate Truthful(request: (BoundaryOptions, string))
  {
    ClaimsFreeFaces(request.1) <==> request.0.storeFreeBoundaryFaces
  }

  /** The eight requests as the source makes them: every one stores free boundary faces. */
  const BoundaryRequestsAsWritten: seq<(BoundaryOptions, string)> := [
    (BoundaryOptions(Center, true), "Center, store free boundary faces"),
    (BoundaryOptions(CoreBoundary, true), "Core boundary, store free boundary faces"),
    (BoundaryOptions(Finish, true), "Finish, store free boundary faces"),
    (BoundaryOptions(CoreCenter, true), "Core center, store free boundary faces"),
    (BoundaryOptions(Center, true), "Center"),
    (BoundaryOptions(CoreBoundary, true), "Core boundary"),
    (BoundaryOptions(Finish, true), "Finish"),
    (BoundaryOptions(CoreCenter, true), "Core center")
  ]

  /** The eight requests as their labels describe them: the last four leave free faces out. */
  const BoundaryRequests: seq<(BoundaryOptions, string)> := [
    (BoundaryOptions(Center, true), "Center, store free boundary faces"),
    (BoundaryOptions(CoreBoundary, true), "Core boundary, store free boundary faces"),
    (BoundaryOptions(Finish, true), "Finish, store free boundary faces"),
    (BoundaryOptions(CoreCenter, true), "Core center, store free boundary faces"),
    (BoundaryOptions(Center, false), "Center"),
    (BoundaryOptions(CoreBoundary, false), "Core boundary"),
    (BoundaryOptions(Finish, false), "Finish"),
    (BoundaryOptions(CoreCenter, false), "Core center")
  ]

  /** The variants built from a list of requests, in request order. */
  function Requested<B>(requests: seq<(BoundaryOptions, string)>, segments: BoundaryOptions -> B): (r: seq<Entry<B>>)
    ensures |r| == |requests|
    ensures forall k | 0 <= k < |requests| :: r[k] == Entry(segments(requests[k].0), Some(requests[k].1))
  {
    seq(|requests|, k requires 0 <= k < |requests| => Entry(segments(requests[k].0), Some(requests[k].1)))
  }

  /** `ResolveGetBoundarySegments` as written: eight labelled `GetBoundarySegments` calls. */
  function ResolveGetBoundarySegmentsAsWritten<B>(segments: BoundaryOptions -> B): (r: Variant<B>)
    ensures r.Values? && |r.entries| == 8
    ensures forall k | 0 <= k < 8 ::
      r.entries[k] == Entry(segments(BoundaryRequestsAsWritten[k].0), Some(BoundaryRequestsAsWritten[k].1))
  {
    Values(Requested(BoundaryRequestsAsWritten, segments))
  }

  /**
   * As written, entry k+4 repeats the request of entry k, so the last four
   * variants show the same segments as the first four under labels that deny
   * storing free boundary faces.
   */
  lemma AsWrittenRepeatsRequests<B>(segments: BoundaryOptions -> B)
    ensures forall k | 0 <= k < 4 ::
      ResolveGetBoundarySegmentsAsWritten(segments).entries[k].value
        == ResolveGetBoundarySegmentsAsWritten(segments).entries[k + 4].value
    ensures !Truthful(BoundaryRequestsAsWritten[4])
  {
    assert !ClaimsFreeFaces("Center");
  }

  /** `ResolveGetBoundarySegments` with the options its labels describe. */
  function ResolveGetBoundarySegments<B>(segments: BoundaryOptions -> B): (r: Variant<B>)
    ensures r.Values? && |r.entries| == 8
    ensures forall k | 0 <= k < 8 ::
      r.entries[k] == Entry(segments(BoundaryRequests[k].0), Some(BoundaryRequests[k].1))
  {
    Values(Requested(BoundaryRequests, segments))
  }

  /** With the intended options every label tells the truth about free faces. */
  lemma RequestsTruthful()
    ensures forall k | 0 <= k < 8 :: Truthful(BoundaryRequests[k])
  {
    forall k | 0 <= k < 8 ensures Truthful(BoundaryRequests[k]) {
      var caption := BoundaryRequests[k].1;
      if k < 4 {
        assert caption[|caption| - |FreeFacesSuffix|..] == FreeFacesSuffix;
      }
    }
  }

  /** Request k and request k+4 ask for the same location, the first with free faces and the second without. */
  predicate PairedByLocation(first: (BoundaryOptions, string), second: (BoundaryOptions, string))
  {
    first.0.location == second.0.location && first.0.storeFreeBoundaryFaces && !second.0.storeFreeBoundaryFaces
  }

  /** The eight intended requests are pairwise different; each location is asked once with and once without free faces. */
  lemma RequestsDistinct()
    ensures forall i, j | 0 <= i < j < 8 :: BoundaryRequests[i].0 != BoundaryRequests[j].0
    ensures forall k | 0 <= k < 4 :: PairedByLocation(BoundaryRequests[k], BoundaryRequests[k + 4])
  {
  }

  /** `RegisterExtensions`: registers nothing. */
  method RegisterExtensions(manager: ExtensionManager)
    ensures manager.names == old(manager.names)
  {
  }
}
