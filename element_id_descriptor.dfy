/**
 * `ElementIdDescriptor`: an element id shown by its number, which redirects
 * navigation to the category or element the id stands for in the current document.
 */
module ElementIdDescriptor {
  import opened Wrappers
  import Text
  import opened Host

  datatype Category = Category(categoryId: ElementId, categoryName: string)
  datatype Element = Element(elementId: ElementId, elementName: string)

  /** The document context: `Category.GetCategory(document, id)` and `id.ToElement(document)`, null as None. */
  datatype Document = Document(getCategory: ElementId -> Option<Category>, toElement: ElementId -> Option<Element>)

  /** The `out object result` of `TryRedirect`: the id itself, a category or an element. */
  datatype Target = TheId(id: ElementId) | TheCategory(category: Category) | TheElement(element: Element)

  /** The self-identity member: navigating into `Id` must not redirect, or the id would open itself forever. */
  const IdMember: string := "Id"

  /** Built-in category ids lie strictly between -3000000 and -2000000. */
  predicate IsCategoryId(id: ElementId)
  {
    -3000000 < id < -2000000
  }

  /** The descriptor's `Name`: the id's string form. */
  function Name(id: ElementId): (r: string)
    ensures |r| >= 1
  {
    IdToString(id)
  }

  /** Two ids never share a display name. */
  lemma NameInjective(a: ElementId, b: ElementId)
    requires Name(a) == Name(b)
    ensures a == b
  {
    Text.IntToStringInjective(a, b);
  }

  /** `TryRedirect(target, context, out result)`: the returned flag and the final value of `result`. */
  function TryRedirect(id: ElementId, target: string, context: Document): (r: (bool, Target))
    ensures !r.0 <==> r.1 == TheId(id)
    ensures target == IdMember ==> !r.0
    ensures id == InvalidElementId ==> !r.0
    ensures r.0 && IsCategoryId(id) ==> r.1.TheCategory? && context.getCategory(id) == Some(r.1.category)
    ensures r.0 && !IsCategoryId(id) ==> r.1.TheElement? && context.toElement(id) == Some(r.1.element)
    ensures target != IdMember && id != InvalidElementId ==>
      (r.0 <==> if IsCategoryId(id) then context.getCategory(id).Some? else context.toElement(id).Some?)
  {
    if target == IdMember then (false, TheId(id))
    else if id == InvalidElementId then (false, TheId(id))
    else if IsCategoryId(id) then
      match context.getCategory(id)
      case None => (false, TheId(id))
      case Some(c) => (true, TheCategory(c))
    else
      match context.toElement(id)
      case None => (false, TheId(id))
      case Some(e) => (true, TheElement(e))
  }
}
