/**
 * The loop several descriptors share: ask the host one question per member of an
 * enumeration, in `Enum.GetValues` order, and label each answer "{member}: {answer}".
 */
module Probes {
  import opened Wrappers
  import opened Engine
  import opened Host

  /** The label "{member}: {answer}". */
  function AnswerLabel(member: string, answer: string): string
  {
    member + ": " + answer
  }

  /** `foreach (var v in Enum.GetValues(…)) { var result = query(v); variants.Add(result, $"{v}: {result}"); }` */
  method ProbeEnum<S>(members: seq<EnumMember>, query: EnumMember -> S, show: S -> string) returns (r: Variant<S>)
    ensures r.Values? && |r.entries| == |members|
    ensures forall k | 0 <= k < |members| ::
      r.entries[k] == Entry(query(members[k]), Some(AnswerLabel(members[k].name, show(query(members[k])))))
  {
    var variants := new Builder<S>(|members|);
    for i := 0 to |members|
      invariant !variants.consumed
      invariant |variants.entries| == i
      invariant forall k | 0 <= k < i ::
        variants.entries[k] == Entry(query(members[k]), Some(AnswerLabel(members[k].name, show(query(members[k])))))
    {
      var member := members[i];
      var result := query(member);
      variants.AddLabelled(result, AnswerLabel(member.name, show(result)));
    }
    r := variants.Consume();
  }

  /** A label starts with the member it belongs to, so members with different names get different labels. */
  lemma AnswerLabelNamesMember(member: string, answer: string)
    ensures |member| <= |AnswerLabel(member, answer)|
    ensures AnswerLabel(member, answer)[..|member|] == member
  {
  }
}
