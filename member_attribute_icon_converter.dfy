/**
 * `MemberAttributeIconConverter`: the icon shown beside a decomposed member,
 * chosen from its attribute flags.
 */
module MemberAttributeIconConverter {
  import opened Wrappers
  import opened Host

  /** The `MemberAttributes` flags the converter tests, one boolean per bit. */
  datatype MemberAttributes = MemberAttributes(
    isPrivate: bool, isStatic: bool, isProperty: bool, isExtension: bool,
    isMethod: bool, isEvent: bool, isField: bool)

  /** The icons the converter returns, and `Binding.DoNothing`. */
  datatype Icon =
    | CalendarLock16 | DocumentLock16 | ClipboardNote16 | ClipboardBulletListLtr16
    | ShieldLock16 | TableLock16 | Box16 | Cube16
    | TrophyLock16 | TagLock16 | TagMultiple16 | Tag16
    | FlashSettings20 | Flash16
    | CubeArrowCurveDown20
    | DoNothing

  /**
   * `Convert`: the first matching test, in source order, decides the icon. The chain
   * agrees with the table: the first kind present, then Private and Static; no kind
   * at all gives DoNothing.
   */
  function Convert(a: MemberAttributes): (r: Icon)
    ensures r == DoNothing <==> FirstKind(a).None?
    ensures FirstKind(a).Some? ==> r == IconFor(FirstKind(a).value, a.isPrivate, a.isStatic)
  {
    if a.isProperty && a.isPrivate && a.isStatic then CalendarLock16
    else if a.isProperty && a.isPrivate then DocumentLock16
    else if a.isProperty && a.isStatic then ClipboardNote16
    else if a.isProperty then ClipboardBulletListLtr16
    else if a.isMethod && a.isPrivate && a.isStatic then ShieldLock16
    else if a.isMethod && a.isPrivate then TableLock16
    else if a.isMethod && a.isStatic then Box16
    else if a.isMethod then Cube16
    else if a.isField && a.isPrivate && a.isStatic then TrophyLock16
    else if a.isField && a.isPrivate then TagLock16
    else if a.isField && a.isStatic then TagMultiple16
    else if a.isField then Tag16
    else if a.isEvent && a.isPrivate then FlashSettings20
    else if a.isEvent then Flash16
    else if a.isExtension then CubeArrowCurveDown20
    else DoNothing
  }

  /** The kinds of member, in the order the converter tests them. */
  datatype Kind = Property | Method | Field | Event | Extension

  /** The first kind bit that is set, in test order; None when no kind bit is set. */
  function FirstKind(a: MemberAttributes): (r: Option<Kind>)
    ensures r == Some(Extension) <==> a.isExtension && !a.isProperty && !a.isMethod && !a.isField && !a.isEvent
    ensures r.None? <==> !a.isProperty && !a.isMethod && !a.isField && !a.isEvent && !a.isExtension
  {
    if a.isProperty then Some(Property)
    else if a.isMethod then Some(Method)
    else if a.isField then Some(Field)
    else if a.isEvent then Some(Event)
    else if a.isExtension then Some(Extension)
    else None
  }

  /** The icon table by kind and modifiers: the reference the converter's chain of tests must agree with. */
  function IconFor(kind: Kind, isPrivate: bool, isStatic: bool): Icon
  {
    match kind
    case Property => if isPrivate && isStatic then CalendarLock16 else if isPrivate then DocumentLock16 else if isStatic then ClipboardNote16 else ClipboardBulletListLtr16
    case Method => if isPrivate && isStatic then ShieldLock16 else if isPrivate then TableLock16 else if isStatic then Box16 else Cube16
    case Field => if isPrivate && isStatic then TrophyLock16 else if isPrivate then TagLock16 else if isStatic then TagMultiple16 else Tag16
    case Event => if isPrivate then FlashSettings20 else Flash16
    case Extension => CubeArrowCurveDown20
  }

  /** Different kinds never share an icon, so the icon tells the member kind. */
  lemma IconsIdentifyKind(k1: Kind, p1: bool, s1: bool, k2: Kind, p2: bool, s2: bool)
    requires IconFor(k1, p1, s1) == IconFor(k2, p2, s2)
    ensures k1 == k2
  {
  }

  /**
   * Which modifiers an icon shows: Static changes the icon of a property, method or
   * field but not of an event or an extension; Private changes every kind's icon
   * except an extension's.
   */
  lemma ModifiersShown(kind: Kind, isPrivate: bool, isStatic: bool)
    ensures IconFor(kind, isPrivate, true) == IconFor(kind, isPrivate, false) <==> kind == Event || kind == Extension
    ensures IconFor(kind, true, isStatic) == IconFor(kind, false, isStatic) <==> kind == Extension
  {
  }

  const NotSupported: Exception := Exception(NotSupportedException, "Specified method is not supported.")

  /** `ConvertBack`: not supported, whatever the input. */
  function ConvertBack(icon: Icon): (r: Result<MemberAttributes, Exception>)
    ensures r == Failure(NotSupported)
  {
    Failure(NotSupported)
  }
}
