/**
 * `EnumeratorDescriptor`: an enumerator that redirects navigation to its current
 * item, captured once when the descriptor is built.
 */
module EnumeratorDescriptor {
  import opened Wrappers

  /** The descriptor's two read-only fields; `O` is the type of the enumerated items. */
  datatype Descriptor<O> = Descriptor(enumerator: nat, current: Option<O>)

  /** What reading `enumerator.Current` gave: an item, null, or an exception. */
  datatype CurrentRead<O> = Item(item: O) | Null | Throws

  /** The `out object result` of `TryRedirect`: the enumerator itself or its current item. */
  datatype Target<O> = TheEnumerator(enumerator: nat) | TheItem(item: O)

  /** The constructor: reads `Current` once; an exception is swallowed and leaves no item. */
  function Create<O>(enumerator: nat, read: CurrentRead<O>): (d: Descriptor<O>)
    ensures d.enumerator == enumerator
    ensures d.current.Some? <==> read.Item?
    ensures read.Item? ==> d.current == Some(read.item)
  {
    match read
    case Item(o) => Descriptor(enumerator, Some(o))
    case Null => Descriptor(enumerator, None)
    case Throws => Descriptor(enumerator, None)
  }

  /** `TryRedirect(target, out result)`: redirects to the captured item when there is one. */
  function TryRedirect<O>(d: Descriptor<O>, target: string): (r: (bool, Target<O>))
    ensures r.0 <==> d.current.Some?
    ensures r.0 ==> r.1 == TheItem(d.current.value)
    ensures !r.0 ==> r.1 == TheEnumerator(d.enumerator)
  {
    match d.current
    case None => (false, TheEnumerator(d.enumerator))
    case Some(o) => (true, TheItem(o))
  }

  /** The member being navigated into plays no part in the outcome. */
  lemma {:induction false} TargetIrrelevant<O>(d: Descriptor<O>, a: string, b: string)
    ensures TryRedirect(d, a) == TryRedirect(d, b)
  {
  }

  /** A descriptor built over a throwing or null `Current` never redirects and hands back the enumerator. */
  lemma CreateThenRedirect<O>(enumerator: nat, read: CurrentRead<O>, target: string)
    ensures TryRedirect(Create(enumerator, read), target).0 <==> read.Item?
    ensures !read.Item? ==> TryRedirect(Create(enumerator, read), target).1 == TheEnumerator(enumerator)
    ensures read.Item? ==> TryRedirect(Create(enumerator, read), target).1 == TheItem(read.item)
  {
  }
}
