/**
 * The few host (Revit API) notions that several descriptors share: element ids,
 * their printed form and enumeration members. Everything else the host offers is
 * passed to each resolver as data or as an uninterpreted function.
 */
module Host {
  import Text

  /** `ElementId.Value`. */
  type ElementId = int

  /** `ElementId.InvalidElementId`. */
  const InvalidElementId: ElementId := -1

  /** `ElementId.ToString()`: the decimal value. */
  function IdToString(id: ElementId): string
  {
    Text.IntToString(id)
  }

  /** One member of a host enumeration, as `Enum.GetValues` lists it; `ToString()` gives `name`. */
  datatype EnumMember = EnumMember(name: string, code: int)

  /**
   * The exception types the modelled code throws or catches; `HostArgumentException`
   * is the host's own `Autodesk.Revit.Exceptions.ArgumentException` family.
   */
  datatype ExceptionKind =
    | ArgumentException | ArgumentOutOfRangeException | InvalidOperationException
    | NullReferenceException | NotSupportedException | HostArgumentException | OtherException

  /** A thrown exception: its type and its `Message`. */
  datatype Exception = Exception(kind: ExceptionKind, message: string)
}
