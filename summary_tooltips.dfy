/**
 * The tooltips of the summary view: one for a decomposed object in the tree, one
 * for a group of objects, and one for a member row of the data grid. Each is
 * text appended piece by piece, with `AppendLine` ending a line in
 * `Environment.NewLine`; the model gives each tooltip as those appends and,
 * beside it, as the list of lines the appends produce.
 */
module SummaryTooltips {
  import opened Wrappers
  import Text
  import MemberAttributeIconConverter

  type MemberAttributes = MemberAttributeIconConverter.MemberAttributes

  /** `Environment.NewLine` on Windows. */
  const NewLine: string := "\r\n"

  /** An `ObservableDecomposedObject` as far as its tooltip reads it. */
  datatype DecomposedObject = DecomposedObject(name: string, typeName: string, typeFullName: string, description: Option<string>)

  /** An `ObservableDecomposedObjectsGroup`: its name and the number of its items. */
  datatype DecomposedGroup = DecomposedGroup(groupName: string, itemCount: nat)

  /**
   * An `ObservableDecomposedMember`: its name and attributes, the decomposed value,
   * the time the member took (milliseconds) and the bytes it allocated.
   */
  datatype DecomposedMember = DecomposedMember(
    name: string, attributes: MemberAttributes, value: DecomposedObject,
    computationTime: real, allocatedBytes: int)

  /** Lines joined by `NewLine`, no separator after the last. */
  function JoinLines(lines: seq<string>): string
    requires |lines| >= 1
  {
    if |lines| == 1 then lines[0] else JoinLines(lines[..|lines| - 1]) + NewLine + lines[|lines| - 1]
  }

  /** One more line on a joined text. */
  lemma JoinLinesSnoc(lines: seq<string>, line: string)
    requires |lines| >= 1
    ensures JoinLines(lines + [line]) == JoinLines(lines) + NewLine + line
  {
    assert (lines + [line])[..|lines|] == lines;
  }

  /** An optional last line: appended after a line break when present. */
  function OptionalLine(line: Option<string>): string
  {
    match line
    case None => ""
    case Some(text) => NewLine + text
  }

  function OptionalLines(line: Option<string>): seq<string>
  {
    match line
    case None => []
    case Some(text) => [text]
  }

  lemma JoinOptional(lines: seq<string>, line: Option<string>)
    requires |lines| >= 1
    ensures JoinLines(lines + OptionalLines(line)) == JoinLines(lines) + OptionalLine(line)
  {
    if line.Some? {
      JoinLinesSnoc(lines, line.value);
    } else {
      assert lines + [] == lines;
    }
  }

  /** The description line, present when the description is not null. */
  function DescriptionLine(description: Option<string>): Option<string>
  {
    match description
    case None => None
    case Some(d) => Some("Description: " + d)
  }

  // ---------------------------------------------------------------- tree object

  /** Three fixed lines joined. */
  lemma JoinThree(l0: string, l1: string, l2: string)
    ensures JoinLines([l0, l1, l2]) == l0 + NewLine + l1 + NewLine + l2
  {
    JoinLinesSnoc([l0], l1);
    assert [l0] + [l1] == [l0, l1];
    JoinLinesSnoc([l0, l1], l2);
    assert [l0, l1] + [l2] == [l0, l1, l2];
  }

  /** The tree tooltip of a decomposed object, as the builder appends it; it is the object's lines joined. */
  function ObjectTooltip(o: DecomposedObject): (r: string)
    ensures r == JoinLines(ObjectLines(o))
  {
    JoinThree("Name: " + o.name, "Type: " + o.typeName, "Full type: " + o.typeFullName);
    JoinOptional(["Name: " + o.name, "Type: " + o.typeName, "Full type: " + o.typeFullName], DescriptionLine(o.description));
    "Name: " + o.name + NewLine
    + "Type: " + o.typeName + NewLine
    + "Full type: " + o.typeFullName
    + OptionalLine(DescriptionLine(o.description))
  }

  /** The lines of the object tooltip. */
  function ObjectLines(o: DecomposedObject): seq<string>
  {
    ["Name: " + o.name, "Type: " + o.typeName, "Full type: " + o.typeFullName]
    + OptionalLines(DescriptionLine(o.description))
  }

  /** The object tooltip is its name, type and full type on three lines, and a fourth line with the description exactly when there is one. */
  lemma ObjectTooltipLayout(o: DecomposedObject)
    ensures ObjectTooltip(o) == JoinLines(ObjectLines(o))
    ensures |ObjectLines(o)| == if o.description.Some? then 4 else 3
    ensures o.description.Some? ==> ObjectLines(o)[3] == "Description: " + o.description.value
  {
  }

  // ---------------------------------------------------------------- tree group

  /** The tree tooltip of a group: its name as the type, and its item count, on two lines. */
  function GroupTooltip(g: DecomposedGroup): (r: string)
    ensures r == JoinLines(["Type: " + g.groupName, "Items: " + Text.NatToString(g.itemCount)])
  {
    JoinLinesSnoc(["Type: " + g.groupName], "Items: " + Text.NatToString(g.itemCount));
    "Type: " + g.groupName + NewLine + "Items: " + Text.NatToString(g.itemCount)
  }

  /** The group tooltip is two lines, and the count can be read back from the second. */
  lemma GroupTooltipLayout(g: DecomposedGroup)
    ensures GroupTooltip(g) == JoinLines(["Type: " + g.groupName, "Items: " + Text.NatToString(g.itemCount)])
    ensures Text.ParseNat(("Items: " + Text.NatToString(g.itemCount))[7..]) == g.itemCount
  {
    assert ("Items: " + Text.NatToString(g.itemCount))[7..] == Text.NatToString(g.itemCount);
    Text.ParseNatToString(g.itemCount);
  }

  // ---------------------------------------------------------------- grid row

  /** The words that open a member row's tooltip, one per attribute bit, in the order the bits are tested. */
  function Modifiers(a: MemberAttributes): string
  {
    (if a.isPrivate then "Private " else "")
    + (if a.isStatic then "Static " else "")
    + (if a.isProperty then "Property: " else "")
    + (if a.isExtension then "Extension: " else "")
    + (if a.isMethod then "Method: " else "")
    + (if a.isEvent then "Event: " else "")
    + (if a.isField then "Field: " else "")
  }

  /** The opening words are absent exactly when no attribute bit is set. */
  lemma ModifiersEmptyIff(a: MemberAttributes)
    ensures Modifiers(a) == "" <==>
      !a.isPrivate && !a.isStatic && !a.isProperty && !a.isExtension && !a.isMethod && !a.isEvent && !a.isField
  {
    if Modifiers(a) == "" {
      assert |Modifiers(a)| == 0;
    }
  }

  type Kind = MemberAttributeIconConverter.Kind

  /** The word a row opens with for each kind of member. */
  function KindWord(kind: Kind): string
  {
    match kind
    case Property => "Property: "
    case Method => "Method: "
    case Field => "Field: "
    case Event => "Event: "
    case Extension => "Extension: "
  }

  /** Exactly one kind bit is set, and it is `kind`'s. */
  predicate HasOnlyKind(a: MemberAttributes, kind: Kind)
  {
    a.isProperty == (kind == MemberAttributeIconConverter.Property)
    && a.isMethod == (kind == MemberAttributeIconConverter.Method)
    && a.isField == (kind == MemberAttributeIconConverter.Field)
    && a.isEvent == (kind == MemberAttributeIconConverter.Event)
    && a.isExtension == (kind == MemberAttributeIconConverter.Extension)
  }

  /** A member of one kind reads "[Private ][Static ]{Kind}: ", e.g. "Private Static Method: ". */
  lemma OneKindPrefix(a: MemberAttributes, kind: Kind)
    requires HasOnlyKind(a, kind)
    ensures Modifiers(a) == (if a.isPrivate then "Private " else "") + (if a.isStatic then "Static " else "") + KindWord(kind)
  {
  }

  /** The time line, present when the member took a positive time; `showTime` is the host's formatting of a double. */
  function TimeLine(m: DecomposedMember, showTime: real -> string): Option<string>
  {
    if m.computationTime > 0.0 then Some("Time: " + showTime(m.computationTime) + " ms") else None
  }

  /** The allocation line, present when the member allocated a positive number of bytes. */
  function AllocationLine(m: DecomposedMember): Option<string>
  {
    if m.allocatedBytes > 0 then Some("Allocated: " + Text.IntToString(m.allocatedBytes) + " bytes") else None
  }

  /** The data grid tooltip of a member row, as the builder appends it; it is the row's lines joined. */
  function GridRowTooltip(m: DecomposedMember, showTime: real -> string): (r: string)
    ensures r == JoinLines(GridRowLines(m, showTime))
  {
    var head := [Modifiers(m.attributes) + m.name, "Type: " + m.value.typeName, "Full type: " + m.value.typeFullName, "Value: " + m.value.name];
    JoinFour(head[0], head[1], head[2], head[3]);
    JoinThreeOptional(head, DescriptionLine(m.value.description), TimeLine(m, showTime), AllocationLine(m));
    (Modifiers(m.attributes) + m.name) + NewLine
    + ("Type: " + m.value.typeName) + NewLine
    + ("Full type: " + m.value.typeFullName) + NewLine
    + ("Value: " + m.value.name)
    + OptionalLine(DescriptionLine(m.value.description))
    + OptionalLine(TimeLine(m, showTime))
    + OptionalLine(AllocationLine(m))
  }

  /** The lines of the member row tooltip. */
  function GridRowLines(m: DecomposedMember, showTime: real -> string): seq<string>
  {
    [Modifiers(m.attributes) + m.name, "Type: " + m.value.typeName, "Full type: " + m.value.typeFullName, "Value: " + m.value.name]
    + OptionalLines(DescriptionLine(m.value.description))
    + OptionalLines(TimeLine(m, showTime))
    + OptionalLines(AllocationLine(m))
  }

  /** Four fixed lines joined. */
  lemma JoinFour(l0: string, l1: string, l2: string, l3: string)
    ensures JoinLines([l0, l1, l2, l3]) == l0 + NewLine + l1 + NewLine + l2 + NewLine + l3
  {
    JoinLinesSnoc([l0], l1);
    assert [l0] + [l1] == [l0, l1];
    JoinLinesSnoc([l0, l1], l2);
    assert [l0, l1] + [l2] == [l0, l1, l2];
    JoinLinesSnoc([l0, l1, l2], l3);
    assert [l0, l1, l2] + [l3] == [l0, l1, l2, l3];
  }

  /** Three optional lines after a fixed head. */
  lemma JoinThreeOptional(head: seq<string>, a: Option<string>, b: Option<string>, c: Option<string>)
    requires |head| >= 1
    ensures JoinLines(head + OptionalLines(a) + OptionalLines(b) + OptionalLines(c))
      == JoinLines(head) + OptionalLine(a) + OptionalLine(b) + OptionalLine(c)
  {
    JoinOptional(head, a);
    JoinOptional(head + OptionalLines(a), b);
    JoinOptional(head + OptionalLines(a) + OptionalLines(b), c);
  }

  /**
   * The member row tooltip: the attribute words and the name, the value's type,
   * full type and name on four lines; then the description, the time and the
   * allocation, each on a line of its own exactly when present, in that order.
   */
  lemma GridRowTooltipLayout(m: DecomposedMember, showTime: real -> string)
    ensures GridRowTooltip(m, showTime) == JoinLines(GridRowLines(m, showTime))
    ensures |GridRowLines(m, showTime)| ==
      4 + (if m.value.description.Some? then 1 else 0) + (if m.computationTime > 0.0 then 1 else 0)
        + (if m.allocatedBytes > 0 then 1 else 0)
    ensures m.allocatedBytes > 0 ==>
      GridRowLines(m, showTime)[|GridRowLines(m, showTime)| - 1] == "Allocated: " + Text.IntToString(m.allocatedBytes) + " bytes"
    ensures m.value.description.Some? ==> GridRowLines(m, showTime)[4] == "Description: " + m.value.description.value
  {
  }
}
