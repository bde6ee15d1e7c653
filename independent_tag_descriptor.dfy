/**
 * `IndependentTagDescriptor`: probes every leader end condition and lists leader
 * geometry per tagged reference, skipping references whose leader is hidden.
 */
module IndependentTagDescriptor {
  import opened Wrappers
  import opened Engine
  import opened Host
  import opened Sequences
  import Text
  import Probes
  import ElementDescriptor

  datatype Reference = Reference(referenceId: int)
  datatype Point = Point(x: real, y: real, z: real)

  /** The tag as its resolvers query it. */
  datatype Tag = Tag(
    taggedReferences: seq<Reference>,
    isLeaderVisible: Reference -> bool,
    hasLeaderElbow: Reference -> bool,
    leaderElbow: Reference -> Point,
    leaderEnd: Reference -> Point,
    canLeaderEndConditionBeAssigned: EnumMember -> bool)

  datatype Resolver = LeaderEndCondition | LeaderElbow | LeaderEnd | HasLeaderElbow | IsLeaderVisible

  /** `Resolve`: the five leader members; nothing else resolves. */
  function Resolve(target: string): (r: Resolution<Resolver>)
    ensures !r.Disabled?
    ensures r == Factory(LeaderEndCondition) <==> target == "CanLeaderEndConditionBeAssigned"
    ensures r == Factory(LeaderElbow) <==> target == "GetLeaderElbow"
    ensures r == Factory(LeaderEnd) <==> target == "GetLeaderEnd"
    ensures r == Factory(HasLeaderElbow) <==> target == "HasLeaderElbow"
    ensures r == Factory(IsLeaderVisible) <==> target == "IsLeaderVisible"
  {
    match target
    case "CanLeaderEndConditionBeAssigned" => Factory(LeaderEndCondition)
    case "GetLeaderElbow" => Factory(LeaderElbow)
    case "GetLeaderEnd" => Factory(LeaderEnd)
    case "HasLeaderElbow" => Factory(HasLeaderElbow)
    case "IsLeaderVisible" => Factory(IsLeaderVisible)
    case _ => Unresolved
  }

  /** The override does not fall back to the element descriptor. */
  lemma HidesElementResolvers(t: ElementDescriptor.Resolver)
    ensures Resolve(ElementDescriptor.MemberName(t)) == Unresolved
  {
  }

  /** `ResolveLeaderEndCondition`: one "{condition}: {result}" entry per `LeaderEndCondition` member. */
  method ResolveLeaderEndCondition(tag: Tag, conditions: seq<EnumMember>) returns (r: Variant<bool>)
    ensures r.Values? && |r.entries| == |conditions|
    ensures forall k | 0 <= k < |conditions| ::
      var result := tag.canLeaderEndConditionBeAssigned(conditions[k]);
      r.entries[k] == Entry(result, Some(conditions[k].name + ": " + Text.BoolToString(result)))
  {
    r := Probes.ProbeEnum(conditions, tag.canLeaderEndConditionBeAssigned, Text.BoolToString);
  }

  /** The references whose elbow is listed: visible leader with an elbow. */
  predicate ShowsElbow(tag: Tag, reference: Reference)
  {
    tag.isLeaderVisible(reference) && tag.hasLeaderElbow(reference)
  }

  /** `ShowsElbow` as a test on references. */
  function ElbowShown(tag: Tag): Reference -> bool
  {
    x => ShowsElbow(tag, x)
  }

  /** An unlabelled entry built from what `part` reads off a reference. */
  function Unlabelled<V>(part: Reference -> V): Reference -> Entry<V>
  {
    x => Entry(part(x), None)
  }

  /** `ResolveLeaderElbow`: the elbows of the visible leaders that have one, in reference order. */
  method ResolveLeaderElbow(tag: Tag) returns (r: Variant<Point>)
    ensures r == Values(Map(Filter(tag.taggedReferences, ElbowShown(tag)), Unlabelled(tag.leaderElbow)))
  {
    var references := tag.taggedReferences;
    ghost var keep := ElbowShown(tag);
    ghost var entry := Unlabelled(tag.leaderElbow);
    var variants := new Builder<Point>(|references|);
    for i := 0 to |references|
      invariant !variants.consumed
      invariant variants.entries == Map(Filter(references[..i], keep), entry)
    {
      FilterPrefix(references, i, keep);
      var reference := references[i];
      if !tag.isLeaderVisible(reference) {
        continue;
      }
      if !tag.hasLeaderElbow(reference) {
        continue;
      }
      MapSnoc(Filter(references[..i], keep), reference, entry);
      variants.Add(tag.leaderElbow(reference));
    }
    assert references[..|references|] == references;
    r := variants.Consume();
  }

  /** `ResolveLeaderEnd`: the leader ends of the visible leaders, in reference order. */
  method ResolveLeaderEnd(tag: Tag) returns (r: Variant<Point>)
    ensures r == Values(Map(Filter(tag.taggedReferences, tag.isLeaderVisible), Unlabelled(tag.leaderEnd)))
  {
    var references := tag.taggedReferences;
    ghost var entry := Unlabelled(tag.leaderEnd);
    var variants := new Builder<Point>(|references|);
    for i := 0 to |references|
      invariant !variants.consumed
      invariant variants.entries == Map(Filter(references[..i], tag.isLeaderVisible), entry)
    {
      FilterPrefix(references, i, tag.isLeaderVisible);
      var reference := references[i];
      if !tag.isLeaderVisible(reference) {
        continue;
      }
      MapSnoc(Filter(references[..i], tag.isLeaderVisible), reference, entry);
      variants.Add(tag.leaderEnd(reference));
    }
    assert references[..|references|] == references;
    r := variants.Consume();
  }

  /** `ResolveHasLeaderElbow`: whether each visible leader has an elbow, in reference order. */
  method ResolveHasLeaderElbow(tag: Tag) returns (r: Variant<bool>)
    ensures r == Values(Map(Filter(tag.taggedReferences, tag.isLeaderVisible), Unlabelled(tag.hasLeaderElbow)))
  {
    var references := tag.taggedReferences;
    ghost var entry := Unlabelled(tag.hasLeaderElbow);
    var variants := new Builder<bool>(|references|);
    for i := 0 to |references|
      invariant !variants.consumed
      invariant variants.entries == Map(Filter(references[..i], tag.isLeaderVisible), entry)
    {
      FilterPrefix(references, i, tag.isLeaderVisible);
      var reference := references[i];
      if !tag.isLeaderVisible(reference) {
        continue;
      }
      MapSnoc(Filter(references[..i], tag.isLeaderVisible), reference, entry);
      variants.Add(tag.hasLeaderElbow(reference));
    }
    assert references[..|references|] == references;
    r := variants.Consume();
  }

  /** `ResolveIsLeaderVisible`: one entry per tagged reference, hidden leaders included. */
  method ResolveIsLeaderVisible(tag: Tag) returns (r: Variant<bool>)
    ensures r.Values? && |r.entries| == |tag.taggedReferences|
    ensures forall k | 0 <= k < |tag.taggedReferences| ::
      r.entries[k] == Entry(tag.isLeaderVisible(tag.taggedReferences[k]), None)
  {
    var references := tag.taggedReferences;
    var variants := new Builder<bool>(|references|);
    for i := 0 to |references|
      invariant !variants.consumed
      invariant |variants.entries| == i
      invariant forall k | 0 <= k < i :: variants.entries[k] == Entry(tag.isLeaderVisible(references[k]), None)
    {
      variants.Add(tag.isLeaderVisible(references[i]));
    }
    r := variants.Consume();
  }

  /**
   * The elbow list is drawn from the references the leader-end list shows, in the
   * same order, and is never longer: every reference with a listed elbow also has a listed end.
   */
  lemma ElbowsAmongEnds(tag: Tag)
    ensures IsSubsequence(Filter(tag.taggedReferences, ElbowShown(tag)), Filter(tag.taggedReferences, tag.isLeaderVisible))
    ensures |Filter(tag.taggedReferences, ElbowShown(tag))| <= |Filter(tag.taggedReferences, tag.isLeaderVisible)|
  {
    FilterStronger(tag.taggedReferences, ElbowShown(tag), tag.isLeaderVisible);
  }

  /** A reference's leader end is listed exactly when its leader is visible. */
  lemma LeaderEndListed(tag: Tag, reference: Reference)
    ensures reference in Filter(tag.taggedReferences, tag.isLeaderVisible)
      <==> reference in tag.taggedReferences && tag.isLeaderVisible(reference)
  {
    FilterMembership(tag.taggedReferences, tag.isLeaderVisible, reference);
  }

  /** `RegisterExtensions`: registers nothing. */
  method RegisterExtensions(manager: ExtensionManager)
    ensures manager.names == old(manager.names)
  {
  }
}
