/**
 * The interface of the decomposition engine that every descriptor plugs into, as
 * far as the descriptors use it: the `Variants` builder and markers, the value a
 * `Resolve` table returns, and the extension manager that `RegisterExtensions`
 * fills. The engine's own behaviour (member enumeration, invocation, sorting) is
 * not part of this model.
 */
module Engine {
  import opened Wrappers

  /** One variant of a member's value, with the label the engine shows beside it. */
  datatype Entry<T> = Entry(value: T, caption: Option<string>)

  /**
   * What a resolver hands back: `Variants.Empty<T>()`, a single value from
   * `Variants.Value(x[, label])`, or the entries of a consumed `Variants.Values<T>(n)`.
   */
  datatype Variant<T> = Empty | Single(entry: Entry<T>) | Values(entries: seq<Entry<T>>)

  /**
   * The outcome of `Resolve(target, parameters)`: `null` (fall back to reflection),
   * `Variants.Disabled` (never invoke), or a factory. `R` names the descriptor's
   * local resolver function that the factory would run.
   */
  datatype Resolution<R> = Unresolved | Disabled | Factory(resolver: R)

  /** The parameter types that overload selection looks at. */
  datatype ParamType = StringParam | ForgeTypeIdParam | SectionTypeParam | IntParam | OtherParam

  /** `Variants.Value(x)`. */
  function Value<T>(x: T): Variant<T>
  {
    Single(Entry(x, None))
  }

  /** `Variants.Value(x, label)`. */
  function LabelledValue<T>(x: T, caption: string): Variant<T>
  {
    Single(Entry(x, Some(caption)))
  }

  /** The labels of a list of entries, in order. */
  function LabelsOf<T>(entries: seq<Entry<T>>): (r: seq<Option<string>>)
    ensures |r| == |entries|
    ensures forall k | 0 <= k < |entries| :: r[k] == entries[k].caption
  {
    seq(|entries|, k requires 0 <= k < |entries| => entries[k].caption)
  }

  /** The builder returned by `Variants.Values<T>(capacity)`. */
  class Builder<T> {
    var entries: seq<Entry<T>>
    var consumed: bool
    const capacity: nat

    constructor (capacity: nat)
      ensures this.capacity == capacity && entries == [] && !consumed
    {
      this.capacity := capacity;
      entries := [];
      consumed := false;
    }

    /** `Add(value)`: appends an unlabelled entry. */
    method Add(value: T)
      requires !consumed
      modifies this`entries
      ensures entries == old(entries) + [Entry(value, None)]
    {
      entries := entries + [Entry(value, None)];
    }

    /** `Add(value, label)`: appends a labelled entry. */
    method AddLabelled(value: T, caption: string)
      requires !consumed
      modifies this`entries
      ensures entries == old(entries) + [Entry(value, Some(caption))]
    {
      entries := entries + [Entry(value, Some(caption))];
    }

    /** `Consume()`: seals the builder and hands its entries over, in insertion order. */
    method Consume() returns (r: Variant<T>)
      requires !consumed
      modifies this`consumed
      ensures consumed && r == Values(entries)
    {
      consumed := true;
      r := Values(entries);
    }
  }

  /** The `IExtensionManager` that `RegisterExtensions` registers extension members with. */
  class ExtensionManager {
    var names: seq<string>

    constructor ()
      ensures names == []
    {
      names := [];
    }

    /** `Register(name, factory)`: records one more extension member. */
    method Register(name: string)
      modifies this
      ensures names == old(names) + [name]
    {
      names := names + [name];
    }
  }
}
