/**
 * `EntityDescriptor`: the extensible-storage `Entity.Get` overloads, resolved by
 * reading every field of the entity's schema, either as stored or converted to a
 * valid display unit of the field's spec.
 */
module EntityDescriptor {
  import opened Wrappers
  import opened Host
  import opened Engine
  import Sequences

  /** How a field stores its values; an integer outside the three declared kinds is `UndefinedContainer`. */
  datatype ContainerType = Simple | Array | Map | UndefinedContainer(code: int)

  /** The CLR types the generic `Get<T>` is instantiated with. */
  datatype ClrType = Named(name: string) | ListOf(item: ClrType) | DictionaryOf(key: ClrType, item: ClrType)

  /** A schema field: its name, container kind, value and key types, and its spec's type id. */
  datatype Field = Field(fieldName: string, containerType: ContainerType, valueType: ClrType, keyType: ClrType, specTypeId: string)

  /** A display unit: a unit type id, or `UnitTypeId.Custom`. */
  datatype Unit = UnitId(typeId: string) | CustomUnit

  /** The entity: the fields its schema lists, and the two reads `Get<T>(field)` and `Get<T>(field, unit)`. */
  datatype Entity<V> = Entity(fields: seq<Field>, get: (Field, ClrType) -> V, getInUnit: (Field, ClrType, Unit) -> V)

  /** `UnitUtils.IsMeasurableSpec` and `UnitUtils.GetValidUnits`. */
  datatype UnitUtils = UnitUtils(isMeasurableSpec: string -> bool, validUnits: string -> seq<string>)

  datatype Resolver = GetByField | GetByFieldForge

  /** `Resolve`: overload selection on the parameter types of `Get`. */
  function Resolve(target: string, parameters: seq<ParamType>): (r: Resolution<Resolver>)
    ensures !r.Disabled?
    ensures r == Factory(GetByField) <==> target == "Get" && parameters == [StringParam]
    ensures r == Factory(GetByFieldForge) <==> target == "Get" && parameters == [StringParam, ForgeTypeIdParam]
  {
    if target == "Get" && |parameters| == 1 && parameters[0] == StringParam then Factory(GetByField)
    else if target == "Get" && |parameters| == 2 && parameters[0] == StringParam && parameters[1] == ForgeTypeIdParam then Factory(GetByFieldForge)
    else Unresolved
  }

  const OutOfRange: Exception := Exception(ArgumentOutOfRangeException, "Specified argument was out of the range of valid values.")
  const NoElements: Exception := Exception(InvalidOperationException, "Sequence contains no elements")

  /** The type argument a field is read with: its value type, a list of it, or a dictionary from its key type to it. */
  function MakeGenericInvoker(field: Field): (r: Result<ClrType, Exception>)
    ensures r.Failure? <==> field.containerType.UndefinedContainer?
    ensures r.Failure? ==> r.error == OutOfRange
    ensures field.containerType == Simple ==> r == Success(field.valueType)
    ensures field.containerType == Array ==> r == Success(ListOf(field.valueType))
    ensures field.containerType == Map ==> r == Success(DictionaryOf(field.keyType, field.valueType))
  {
    match field.containerType
    case Simple => Success(field.valueType)
    case Array => Success(ListOf(field.valueType))
    case Map => Success(DictionaryOf(field.keyType, field.valueType))
    case UndefinedContainer(_) => Failure(OutOfRange)
  }

  /** `GetValidUnit`: the first valid unit of a measurable spec, `Custom` for anything else. */
  function GetValidUnit(spec: string, units: UnitUtils): (r: Result<Unit, Exception>)
    ensures !units.isMeasurableSpec(spec) ==> r == Success(CustomUnit)
    ensures r.Failure? <==> units.isMeasurableSpec(spec) && units.validUnits(spec) == []
    ensures r.Failure? ==> r.error == NoElements
    ensures r.Success? && r.value.UnitId? ==> r.value.typeId in units.validUnits(spec)
    ensures units.isMeasurableSpec(spec) && units.validUnits(spec) != [] ==> r == Success(UnitId(units.validUnits(spec)[0]))
  {
    if !units.isMeasurableSpec(spec) then Success(CustomUnit)
    else if |units.validUnits(spec)| == 0 then Failure(NoElements)
    else Success(UnitId(units.validUnits(spec)[0]))
  }

  /** What reading one field by the plain overload throws, if anything. */
  function FieldError(field: Field): Option<Exception>
  {
    if MakeGenericInvoker(field).Failure? then Some(MakeGenericInvoker(field).error) else None
  }

  /** What reading one field by the unit-aware overload throws: the unit lookup runs first. */
  function ForgeFieldError(units: UnitUtils): Field -> Option<Exception>
  {
    (field: Field) =>
      var unit := GetValidUnit(field.specTypeId, units);
      if unit.Failure? then Some(unit.error) else FieldError(field)
  }

  /** The entry for one field read by the plain overload, labelled with the field name. */
  function FieldEntry<V>(entity: Entity<V>): Field -> Entry<V>
  {
    (field: Field) =>
      var container := MakeGenericInvoker(field);
      // the value type stands in where the resolver has already thrown
      var t := if container.Success? then container.value else field.valueType;
      Entry(entity.get(field, t), Some(field.fieldName))
  }

  /** The entry for one field read in its valid unit, labelled with the field name. */
  function ForgeFieldEntry<V>(entity: Entity<V>, units: UnitUtils): Field -> Entry<V>
  {
    (field: Field) =>
      var container := MakeGenericInvoker(field);
      var t := if container.Success? then container.value else field.valueType;
      var unit := GetValidUnit(field.specTypeId, units);
      var u := if unit.Success? then unit.value else CustomUnit;
      Entry(entity.getInUnit(field, t, u), Some(field.fieldName))
  }

  /** `errors` all pass until one field's error, which is `e`. */
  predicate FirstError(fields: seq<Field>, error: Field -> Option<Exception>, e: Exception)
  {
    exists k | 0 <= k < |fields| :: error(fields[k]) == Some(e) && forall j | 0 <= j < k :: error(fields[j]).None?
  }

  /** `Get(string)`: one entry per schema field, in `ListFields` order; a field of undefined container kind throws. */
  method ResolveGetByField<V>(entity: Entity<V>) returns (r: Result<Variant<V>, Exception>)
    ensures r.Success? <==> forall k | 0 <= k < |entity.fields| :: FieldError(entity.fields[k]).None?
    ensures r.Failure? ==> FirstError(entity.fields, FieldError, r.error)
    ensures r.Success? ==> r.value == Values(Sequences.Map(entity.fields, FieldEntry(entity)))
  {
    var fields := entity.fields;
    var variants := new Builder<V>(|fields|);
    for i := 0 to |fields|
      invariant !variants.consumed
      invariant forall k | 0 <= k < i :: FieldError(fields[k]).None?
      invariant variants.entries == Sequences.Map(fields[..i], FieldEntry(entity))
    {
      var field := fields[i];
      var genericMethod := MakeGenericInvoker(field);
      if genericMethod.Failure? {
        assert FieldError(fields[i]) == Some(genericMethod.error);
        return Failure(genericMethod.error);
      }
      Sequences.MapSnoc(fields[..i], field, FieldEntry(entity));
      assert fields[..i + 1] == fields[..i] + [field];
      variants.AddLabelled(entity.get(field, genericMethod.value), field.fieldName);
    }
    assert fields[..|fields|] == fields;
    var result := variants.Consume();
    return Success(result);
  }

  /** `Get(string, ForgeTypeId)`: one entry per schema field, each read in the first valid unit of its spec. */
  method ResolveGetByFieldForge<V>(entity: Entity<V>, units: UnitUtils) returns (r: Result<Variant<V>, Exception>)
    ensures r.Success? <==> forall k | 0 <= k < |entity.fields| :: ForgeFieldError(units)(entity.fields[k]).None?
    ensures r.Failure? ==> FirstError(entity.fields, ForgeFieldError(units), r.error)
    ensures r.Success? ==> r.value == Values(Sequences.Map(entity.fields, ForgeFieldEntry(entity, units)))
  {
    var fields := entity.fields;
    var variants := new Builder<V>(|fields|);
    for i := 0 to |fields|
      invariant !variants.consumed
      invariant forall k | 0 <= k < i :: ForgeFieldError(units)(fields[k]).None?
      invariant variants.entries == Sequences.Map(fields[..i], ForgeFieldEntry(entity, units))
    {
      var field := fields[i];
      var unit := GetValidUnit(field.specTypeId, units);
      if unit.Failure? {
        assert ForgeFieldError(units)(fields[i]) == Some(unit.error);
        return Failure(unit.error);
      }
      var genericMethod := MakeGenericInvoker(field);
      if genericMethod.Failure? {
        assert ForgeFieldError(units)(fields[i]) == Some(genericMethod.error);
        return Failure(genericMethod.error);
      }
      Sequences.MapSnoc(fields[..i], field, ForgeFieldEntry(entity, units));
      assert fields[..i + 1] == fields[..i] + [field];
      variants.AddLabelled(entity.getInUnit(field, genericMethod.value, unit.value), field.fieldName);
    }
    assert fields[..|fields|] == fields;
    var result := variants.Consume();
    return Success(result);
  }
}
